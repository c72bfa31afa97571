/**
 * The unified analyser (`UnifiedPDFAnalyzer` in backup/unified_pdf_analyzer.py): keyword
 * classification of a page's text, the mapping of the model's free-text category to a
 * `DocType`, the small value readers used when applying extracted fields, the corporation
 * heuristics, and the fill-only merge of several pages of one category.
 */
module UnifiedPdfAnalyzer {
  import opened Wrappers
  import opened Text
  import opened Values
  import opened DocTypes
  import Numbers
  import Sorting
  import DualAnalysis

  // ================================================================== page classification

  /** One entry of `DOC_DETECTION_RULES`. */
  datatype DetectionRule = DetectionRule(
    docType: DocType, mustHave: seq<string>, shouldHave: seq<string>, mustNotHave: seq<string>)

  /** `DOC_DETECTION_RULES`, in the dict's insertion order. */
  const DocDetectionRules: seq<DetectionRule> := [
    DetectionRule(HousingSaleApplication, ["주택매도", "신청서"],
      ["소유자", "매도주택", "대지면적", "건물사용승인일", "인감"], ["임대현황"]),
    DetectionRule(RentalStatus, ["임대현황"], ["호별", "전용면적", "보증금", "임대"], []),
    DetectionRule(PowerOfAttorney, ["위임장"], ["위임인", "수임인", "위임합니다"], []),
    DetectionRule(ConsentForm, ["동의서"], ["개인정보", "수집", "이용", "제공"], []),
    DetectionRule(IntegrityPledge, ["청렴서약서"], ["서약", "부정청탁"], []),
    DetectionRule(LhEmployeeConfirm, ["공사직원"], ["LH", "한국토지주택공사", "직원여부"], []),
    DetectionRule(SealCertificate, ["인감증명"], ["본인발급", "법인인감"], []),
    DetectionRule(BuildingLedgerTitle, ["건축물대장"],
      ["표제부", "대지위치", "주용도", "사용승인", "내진설계"], ["전유부", "총괄"]),
    DetectionRule(BuildingLedgerSummary, ["건축물대장", "총괄"], ["표제부"], []),
    DetectionRule(BuildingLedgerExclusive, ["건축물대장"], ["전유부", "전유부분", "호수"], []),
    DetectionRule(LandLedger, ["토지대장"], ["지목", "면적", "소유자"], ["이용계획"]),
    DetectionRule(LandUsePlan, ["토지이용계획"], ["용도지역", "도시계획"], []),
    DetectionRule(BuildingRegistry, ["등기사항전부증명서"], ["건물", "갑구", "을구"], []),
    DetectionRule(LandRegistry, ["등기사항전부증명서"], ["토지", "갑구", "을구"], []),
    DetectionRule(AsBuiltDrawing, ["준공"], ["도면", "주단면", "종단면", "외벽", "마감", "단열"], []),
    DetectionRule(TestCertificate, ["시험성적"], ["열방출", "가스유해성", "시험"], []),
    DetectionRule(DeliveryConfirmation, ["납품확인"], ["납품", "확인서"], [])
  ]

  /** A condition on the normalised page text, built from substring tests. */
  datatype Cond = Has(key: string) | Not(c: Cond) | And(a: Cond, b: Cond) | Or(a: Cond, b: Cond)

  predicate Holds(c: Cond, t: string)
  {
    match c
    case Has(k) => Contains(t, k)
    case Not(d) => !Holds(d, t)
    case And(a, b) => Holds(a, t) && Holds(b, t)
    case Or(a, b) => Holds(a, t) || Holds(b, t)
  }

  /** A keyword fallback: when its condition holds, its category scores `score`. */
  datatype Fallback = Fallback(when: Cond, docType: DocType, score: real)

  /**
   * The fallbacks of `_detect_document_type`, in the order the code tries them. The
   * registry pair comes first, when the best score is still 0.0, so its `elif` branch is
   * taken exactly when "토지" is absent.
   */
  const Fallbacks: seq<Fallback> := [
    Fallback(And(Or(Has("등기부등본"), Has("등기사항전부")), Has("토지")), LandRegistry, 0.84),
    Fallback(And(Or(Has("등기부등본"), Has("등기사항전부")), Not(Has("토지"))), BuildingRegistry, 0.82),
    Fallback(And(Has("토지대장"), Not(Has("이용계획"))), LandLedger, 0.85),
    Fallback(Or(Has("토지이용계획"), Has("이용계획확인원")), LandUsePlan, 0.85),
    Fallback(Or(Has("총괄표제부"), Has("건축물대장총괄")), BuildingLedgerSummary, 0.88),
    Fallback(Or(Has("건축물대장전유부"), And(Has("전유부"), Has("건축물대장"))), BuildingLedgerExclusive, 0.88),
    Fallback(And(Has("매도신청서"), Not(Has("임대현황"))), HousingSaleApplication, 0.88),
    Fallback(Has("매도신청주택임대현황"), RentalStatus, 0.9),
    Fallback(Has("임대현황"), RentalStatus, 0.85),
    Fallback(Has("위임장"), PowerOfAttorney, 0.88),
    Fallback(Has("개인정보동의서"), ConsentForm, 0.88),
    Fallback(Has("청렴서약서"), IntegrityPledge, 0.88),
    Fallback(Has("청렴서약"), IntegrityPledge, 0.82),
    Fallback(Has("공사직원확인서"), LhEmployeeConfirm, 0.88),
    Fallback(Has("공사직원"), LhEmployeeConfirm, 0.82),
    Fallback(Has("인감증명서"), SealCertificate, 0.88),
    Fallback(Has("인감증명"), SealCertificate, 0.82),
    Fallback(Has("건축물현황도"), BuildingLayout, 0.88),
    Fallback(Has("건축물대장"), BuildingLedgerTitle, 0.82),
    Fallback(Has("준공도면"), AsBuiltDrawing, 0.88),
    Fallback(Has("시험성적서"), TestCertificate, 0.88),
    Fallback(Has("납품확인서"), DeliveryConfirmation, 0.88),
    Fallback(And(Has("개인정보"), Has("동의서")), ConsentForm, 0.8),
    Fallback(And(Has("대리인"), Or(Has("신분증"), Has("사본"))), AgentIdCard, 0.85)
  ]

  /** `text.replace(" ", "").replace("\n", "")` */
  function Squeeze(s: string): string
  {
    Without(s, {' ', '\n'})
  }

  /** How many of `keys` (with their spaces removed) occur in `t`. */
  function Hits(t: string, keys: seq<string>): (n: nat)
    ensures n <= |keys|
  {
    if keys == [] then 0
    else Hits(t, keys[..|keys| - 1]) + (if Contains(t, Without(keys[|keys| - 1], {' '})) then 1 else 0)
  }

  /** Some key of `keys` (with its spaces removed) occurs in `t`. */
  predicate AnyHit(t: string, keys: seq<string>)
  {
    exists i :: 0 <= i < |keys| && Contains(t, Without(keys[i], {' '}))
  }

  /**
   * The score one rule gives the page: (must + should hits) / (number of must and should
   * keywords) when every must keyword occurs and no must-not keyword does; 0.0 otherwise.
   */
  function RuleScore(t: string, rule: DetectionRule): (r: real)
    ensures r >= 0.0
  {
    var total := |rule.mustHave| + |rule.shouldHave|;
    if Hits(t, rule.mustHave) < |rule.mustHave| || AnyHit(t, rule.mustNotHave) || total == 0 then 0.0
    else (Hits(t, rule.mustHave) + Hits(t, rule.shouldHave)) as real / total as real
  }

  /** The candidates in the order the code meets them: the fallbacks, then the rules. */
  function CandidateCount(fallbacks: seq<Fallback>, rules: seq<DetectionRule>): nat
  {
    |fallbacks| + |rules|
  }

  function CandidateType(fallbacks: seq<Fallback>, rules: seq<DetectionRule>, i: nat): DocType
    requires i < CandidateCount(fallbacks, rules)
  {
    if i < |fallbacks| then fallbacks[i].docType else rules[i - |fallbacks|].docType
  }

  /** The score candidate `i` offers; 0.0 when its condition fails. */
  function CandidateScore(fallbacks: seq<Fallback>, rules: seq<DetectionRule>, t: string, i: nat): real
    requires i < CandidateCount(fallbacks, rules)
  {
    if i < |fallbacks| then (if Holds(fallbacks[i].when, t) then fallbacks[i].score else 0.0)
    else RuleScore(t, rules[i - |fallbacks|])
  }

  /**
   * The running best after the first `n` candidates: it starts at (UNKNOWN, 0.0) and is
   * replaced only by a strictly greater score.
   */
  function Best(fallbacks: seq<Fallback>, rules: seq<DetectionRule>, t: string, n: nat): (DocType, real)
    requires n <= CandidateCount(fallbacks, rules)
  {
    if n == 0 then (Unknown, 0.0)
    else
      var b := Best(fallbacks, rules, t, n - 1);
      var s := CandidateScore(fallbacks, rules, t, n - 1);
      if s > b.1 then (CandidateType(fallbacks, rules, n - 1), s) else b
  }

  /** `_detect_document_type(text)` */
  function Detection(text: string): (DocType, real)
  {
    Best(Fallbacks, DocDetectionRules, Squeeze(text), CandidateCount(Fallbacks, DocDetectionRules))
  }

  /** The count loop of one rule: the rule's score, computed as the code does. */
  method ScoreRule(t: string, rule: DetectionRule) returns (score: real)
    ensures score == RuleScore(t, rule)
  {
    var must := 0;
    var i := 0;
    while i < |rule.mustHave|
      invariant 0 <= i <= |rule.mustHave|
      invariant must == Hits(t, rule.mustHave[..i])
    {
      assert rule.mustHave[..i + 1][..i] == rule.mustHave[..i];
      if Contains(t, Without(rule.mustHave[i], {' '})) {
        must := must + 1;
      }
      i := i + 1;
    }
    assert rule.mustHave[..i] == rule.mustHave;
    if must < |rule.mustHave| {
      return 0.0;
    }
    var excluded := false;
    i := 0;
    while i < |rule.mustNotHave|
      invariant 0 <= i <= |rule.mustNotHave|
      invariant excluded <==> exists j :: 0 <= j < i && Contains(t, Without(rule.mustNotHave[j], {' '}))
    {
      if Contains(t, Without(rule.mustNotHave[i], {' '})) {
        excluded := true;
        break;
      }
      i := i + 1;
    }
    if excluded {
      return 0.0;
    }
    var should := 0;
    i := 0;
    while i < |rule.shouldHave|
      invariant 0 <= i <= |rule.shouldHave|
      invariant should == Hits(t, rule.shouldHave[..i])
    {
      assert rule.shouldHave[..i + 1][..i] == rule.shouldHave[..i];
      if Contains(t, Without(rule.shouldHave[i], {' '})) {
        should := should + 1;
      }
      i := i + 1;
    }
    assert rule.shouldHave[..i] == rule.shouldHave;
    var total := |rule.mustHave| + |rule.shouldHave|;
    score := if total > 0 then (must + should) as real / total as real else 0.0;
  }

  /** The two scans of `_detect_document_type` over the fallbacks and the rules. */
  method BestCandidate(fallbacks: seq<Fallback>, rules: seq<DetectionRule>, t: string)
    returns (docType: DocType, score: real)
    ensures (docType, score) == Best(fallbacks, rules, t, CandidateCount(fallbacks, rules))
  {
    docType, score := Unknown, 0.0;
    var i := 0;
    while i < |fallbacks|
      invariant 0 <= i <= |fallbacks|
      invariant (docType, score) == Best(fallbacks, rules, t, i)
      invariant score >= 0.0
    {
      if Holds(fallbacks[i].when, t) && fallbacks[i].score > score {
        docType, score := fallbacks[i].docType, fallbacks[i].score;
      }
      i := i + 1;
    }
    var j := 0;
    while j < |rules|
      invariant 0 <= j <= |rules|
      invariant (docType, score) == Best(fallbacks, rules, t, |fallbacks| + j)
    {
      var s := ScoreRule(t, rules[j]);
      if s > score {
        docType, score := rules[j].docType, s;
      }
      j := j + 1;
    }
  }

  /**
   * `_detect_document_type(text)`: the first candidate with the greatest score, or
   * (UNKNOWN, 0.0) when no candidate scores.
   */
  method DetectDocumentType(text: string) returns (docType: DocType, score: real)
    ensures (docType, score) == Detection(text)
    ensures docType == Unknown <==> score == 0.0
    ensures docType == Unknown <==> forall i :: 0 <= i < CandidateCount(Fallbacks, DocDetectionRules) ==>
      CandidateScore(Fallbacks, DocDetectionRules, Squeeze(text), i) == 0.0
  {
    var fallbacks, rules := Fallbacks, DocDetectionRules;
    docType, score := BestCandidate(fallbacks, rules, Squeeze(text));
    DetectionUnknownIff(text);
  }

  /** The characters of a page that count towards the 40-character threshold. */
  function SignificantLength(text: string): nat
  {
    |Squeeze(Strip(text))|
  }

  /**
   * The per-page typing step of `analyze`: the keyword detection, overridden by
   * (UNKNOWN, 0.0) when the page has fewer than 40 characters other than spaces and
   * newlines (scanned pages are left to the vision model).
   */
  method ClassifyPage(text: string) returns (docType: DocType, score: real)
    ensures SignificantLength(text) < 40 ==> docType == Unknown && score == 0.0
    ensures SignificantLength(text) >= 40 ==> (docType, score) == Detection(text)
  {
    docType, score := DetectDocumentType(text);
    if SignificantLength(text) < 40 {
      docType, score := Unknown, 0.0;
    }
  }

  // ------------------------------------------------------------------ detection laws

  lemma NoUnknownCandidate(i: nat)
    requires i < CandidateCount(Fallbacks, DocDetectionRules)
    ensures CandidateType(Fallbacks, DocDetectionRules, i) != Unknown
  {
  }

  /** Every rule of the table has a must keyword, and every fallback a positive score. */
  lemma TablesArePositive()
    ensures forall i :: 0 <= i < |DocDetectionRules| ==> |DocDetectionRules[i].mustHave| >= 1
    ensures forall i :: 0 <= i < |Fallbacks| ==> Fallbacks[i].score > 0.0
  {
  }

  lemma {:induction false} AllHitsMeansEvery(t: string, keys: seq<string>)
    ensures Hits(t, keys) == |keys| <==> forall i :: 0 <= i < |keys| ==> Contains(t, Without(keys[i], {' '}))
  {
    if keys != [] {
      var init := keys[..|keys| - 1];
      AllHitsMeansEvery(t, init);
      assert forall i :: 0 <= i < |init| ==> init[i] == keys[i];
    }
  }

  /**
   * A rule scores exactly when all its must keywords occur and none of its must-not
   * keywords does; its score is then (must + should hits) / total.
   */
  lemma RuleScoreMeaning(t: string, rule: DetectionRule)
    requires |rule.mustHave| >= 1
    ensures RuleScore(t, rule) > 0.0 <==>
      (forall i :: 0 <= i < |rule.mustHave| ==> Contains(t, Without(rule.mustHave[i], {' '})))
      && !AnyHit(t, rule.mustNotHave)
    ensures RuleScore(t, rule) > 0.0 ==>
      RuleScore(t, rule) == (|rule.mustHave| + Hits(t, rule.shouldHave)) as real
        / (|rule.mustHave| + |rule.shouldHave|) as real
    ensures RuleScore(t, rule) <= 1.0
  {
    AllHitsMeansEvery(t, rule.mustHave);
    var total := |rule.mustHave| + |rule.shouldHave|;
    RatioAtMostOne(Hits(t, rule.mustHave) + Hits(t, rule.shouldHave), total);
  }

  lemma RatioAtMostOne(x: nat, y: nat)
    requires x <= y
    ensures y > 0 ==> x as real / y as real <= 1.0
  {
    if y > 0 {
      assert x as real / y as real * y as real == x as real;
    }
  }

  lemma CandidateScoreNonNegative(t: string, i: nat)
    requires i < CandidateCount(Fallbacks, DocDetectionRules)
    ensures CandidateScore(Fallbacks, DocDetectionRules, t, i) >= 0.0
  {
    TablesArePositive();
  }

  /**
   * The running best is the first candidate with the greatest score: no candidate beats
   * it, every earlier one scores strictly less, and it stays (UNKNOWN, 0.0) while no
   * candidate has a positive score.
   */
  lemma {:induction false} BestIsFirstMax(fallbacks: seq<Fallback>, rules: seq<DetectionRule>, t: string, n: nat)
    requires n <= CandidateCount(fallbacks, rules)
    ensures Best(fallbacks, rules, t, n).1 >= 0.0
    ensures forall j :: 0 <= j < n ==> CandidateScore(fallbacks, rules, t, j) <= Best(fallbacks, rules, t, n).1
    ensures Best(fallbacks, rules, t, n).1 == 0.0 ==> Best(fallbacks, rules, t, n).0 == Unknown
    ensures Best(fallbacks, rules, t, n).1 > 0.0 ==>
      exists b :: 0 <= b < n
        && CandidateScore(fallbacks, rules, t, b) == Best(fallbacks, rules, t, n).1
        && CandidateType(fallbacks, rules, b) == Best(fallbacks, rules, t, n).0
        && forall j :: 0 <= j < b ==> CandidateScore(fallbacks, rules, t, j) < Best(fallbacks, rules, t, n).1
  {
    if n > 0 {
      BestIsFirstMax(fallbacks, rules, t, n - 1);
      var b := Best(fallbacks, rules, t, n - 1);
      var s := CandidateScore(fallbacks, rules, t, n - 1);
      if s > b.1 {
        assert Best(fallbacks, rules, t, n) == (CandidateType(fallbacks, rules, n - 1), s);
        assert forall j :: 0 <= j < n - 1 ==> CandidateScore(fallbacks, rules, t, j) < s;
      }
    }
  }

  /** The page is UNKNOWN exactly when no fallback condition holds and no rule scores. */
  lemma DetectionUnknownIff(text: string)
    ensures Detection(text).0 == Unknown <==> Detection(text).1 == 0.0
    ensures Detection(text).0 == Unknown <==>
      forall i :: 0 <= i < CandidateCount(Fallbacks, DocDetectionRules) ==>
        CandidateScore(Fallbacks, DocDetectionRules, Squeeze(text), i) == 0.0
  {
    var t := Squeeze(text);
    var n := CandidateCount(Fallbacks, DocDetectionRules);
    BestIsFirstMax(Fallbacks, DocDetectionRules, t, n);
    if Detection(text).1 > 0.0 {
      var b :| 0 <= b < n
        && CandidateScore(Fallbacks, DocDetectionRules, t, b) == Detection(text).1
        && CandidateType(Fallbacks, DocDetectionRules, b) == Detection(text).0;
      NoUnknownCandidate(b);
    } else {
      forall i | 0 <= i < n
        ensures CandidateScore(Fallbacks, DocDetectionRules, t, i) == 0.0
      {
        CandidateScoreNonNegative(t, i);
      }
    }
  }

  // ================================================================== category strings

  /** The categories a string can be mapped to by its key table. */
  type KnownType = t: DocType | t != Unknown witness HousingSaleApplication

  /**
   * The ordered key table of `_map_type_string`, more specific keys first; it is written in
   * six parts only to keep each part's check small.
   */
  const TypeKeys: seq<(string, KnownType)> := TypeKeys1 + TypeKeys2 + TypeKeys3 + TypeKeys4 + TypeKeys5 + TypeKeys6

  const TypeKeys1: seq<(string, KnownType)> := [
    ("주택매도신청서", HousingSaleApplication), ("매도신청서", HousingSaleApplication),
    ("매도신청주택임대현황", RentalStatus), ("임대현황", RentalStatus),
    ("위임장", PowerOfAttorney),
    ("개인정보동의서", ConsentForm), ("개인정보수집이용제공", ConsentForm),
    ("개인정보수집", ConsentForm), ("개인정보동의", ConsentForm), ("개인정보", ConsentForm)
  ]

  const TypeKeys2: seq<(string, KnownType)> := [
    ("청렴서약서", IntegrityPledge), ("청렴서약", IntegrityPledge),
    ("공사직원확인서", LhEmployeeConfirm), ("공사직원여부", LhEmployeeConfirm),
    ("공사직원", LhEmployeeConfirm), ("직원확인서", LhEmployeeConfirm),
    ("인감증명서", SealCertificate), ("인감증명", SealCertificate),
    ("본인발급용", SealCertificate), ("법인인감", SealCertificate)
  ]

  const TypeKeys3: seq<(string, KnownType)> := [
    ("대리인신분증사본", AgentIdCard), ("대리인신분증", AgentIdCard),
    ("건축물대장총괄표제부", BuildingLedgerSummary), ("총괄표제부", BuildingLedgerSummary),
    ("건축물대장총괄", BuildingLedgerSummary),
    ("건축물대장전유부", BuildingLedgerExclusive), ("전유부", BuildingLedgerExclusive),
    ("전유부분", BuildingLedgerExclusive),
    ("건축물대장표제부", BuildingLedgerTitle), ("건축물대장", BuildingLedgerTitle)
  ]

  const TypeKeys4: seq<(string, KnownType)> := [
    ("표제부", BuildingLedgerTitle),
    ("건축물현황도", BuildingLayout), ("현황도", BuildingLayout),
    ("토지대장", LandLedger),
    ("토지이용계획확인원", LandUsePlan), ("토지이용계획", LandUsePlan), ("이용계획확인원", LandUsePlan),
    ("건물등기부등본", BuildingRegistry), ("건물등본", BuildingRegistry),
    ("토지등기부등본", LandRegistry)
  ]

  const TypeKeys5: seq<(string, KnownType)> := [
    ("토지등본", LandRegistry),
    ("등기사항전부증명서", BuildingRegistry), ("등기부등본", BuildingRegistry),
    ("등기사항전부", BuildingRegistry), ("등본", BuildingRegistry),
    ("준공도면", AsBuiltDrawing), ("준공도", AsBuiltDrawing),
    ("시험성적서", TestCertificate), ("시험성적", TestCertificate),
    ("납품확인서", DeliveryConfirmation)
  ]

  const TypeKeys6: seq<(string, KnownType)> := [
    ("납품확인", DeliveryConfirmation),
    ("중개사무소등록증", RealtorRegistration), ("중개사무소", RealtorRegistration),
    ("사업자등록증", BusinessRegistration), ("사업자등록", BusinessRegistration)
  ]

  function Keys(table: seq<(string, KnownType)>): (r: seq<string>)
    ensures |r| == |table|
    ensures forall i :: 0 <= i < |table| ==> r[i] == table[i].0
  {
    seq(|table|, i requires 0 <= i < |table| => table[i].0)
  }

  /** `type_str.replace(" ", "").replace("\n", "").strip()` */
  function TypeNormalize(s: string): string
  {
    Strip(Squeeze(s))
  }

  /** The last resort of the mapping: "토지" together with "등기" or "등본". */
  predicate LandRegistryHint(n: string)
  {
    Contains(n, "토지") && (Contains(n, "등기") || Contains(n, "등본"))
  }

  /**
   * The mapping of `_map_type_string` over a key table: UNKNOWN for anything but a
   * non-empty string; else the category of the first table key found in the normalised
   * string; else LAND_REGISTRY on the land-registry hint; else UNKNOWN.
   */
  function MapWith(table: seq<(string, KnownType)>, v: Value): (r: DocType)
    ensures !v.Str? || v.s == [] ==> r == Unknown
    ensures v.Str? && v.s != [] && !ContainsAny(TypeNormalize(v.s), Keys(table)) ==>
      r == (if LandRegistryHint(TypeNormalize(v.s)) then LandRegistry else Unknown)
  {
    if !v.Str? || v.s == [] then Unknown
    else
      var n := TypeNormalize(v.s);
      var i := FirstHit(n, Keys(table));
      if i >= 0 then table[i].1
      else if LandRegistryHint(n) then LandRegistry
      else Unknown
  }

  /** Key `i` of the table is the first one found in `n`. */
  predicate FirstKeyAt(n: string, table: seq<(string, KnownType)>, i: int)
  {
    0 <= i < |table| && Contains(n, table[i].0)
    && forall j :: 0 <= j < i ==> !Contains(n, table[j].0)
  }

  /** The first key found in the normalised string decides the category. */
  lemma MapWithFirstKey(table: seq<(string, KnownType)>, v: Value, i: int)
    requires v.Str? && v.s != [] && FirstKeyAt(TypeNormalize(v.s), table, i)
    ensures MapWith(table, v) == table[i].1
  {
    var n := TypeNormalize(v.s);
    var keys := Keys(table);
    var k := FirstHit(n, keys);
    assert keys[i] == table[i].0 && Contains(n, keys[i]);
    assert k != -1;
    assert k == i;
  }

  /** `_map_type_string(type_str)` */
  function MapTypeString(v: Value): (r: DocType)
    ensures r == Unknown <==>
      (!v.Str? || v.s == []
       || (!ContainsAny(TypeNormalize(v.s), Keys(TypeKeys)) && !LandRegistryHint(TypeNormalize(v.s))))
  {
    MapWithUnknownIff(TypeKeys, v);
    MapWith(TypeKeys, v)
  }

  /**
   * The mapping gives UNKNOWN exactly for a non-string or empty input, or a string with no
   * table key and no land-registry hint.
   */
  lemma MapWithUnknownIff(table: seq<(string, KnownType)>, v: Value)
    ensures MapWith(table, v) == Unknown <==>
      !v.Str? || v.s == []
      || (!ContainsAny(TypeNormalize(v.s), Keys(table)) && !LandRegistryHint(TypeNormalize(v.s)))
  {
    if v.Str? && v.s != [] {
      var i := FirstHit(TypeNormalize(v.s), Keys(table));
      if i >= 0 {
        assert table[i].1 != Unknown;
      }
    }
  }

  // ================================================================== value readers

  /** The strings `_get_first` treats as "no value" after strip and lower-casing. */
  const NullWords: set<string> := {"null", "none", "-", "없음"}

  /**
   * Whether `_get_first` accepts value `v` under key `k`: not None, not a blank or
   * null-word string, and not a numeric zero unless the key names an area or a count.
   */
  predicate Usable(k: string, v: Value)
  {
    v != Null
    && !(v.Str? && (Strip(v.s) == [] || Lower(Strip(v.s)) in NullWords))
    && !(IsNumber(v) && AsReal(v) == 0.0 && !Contains(k, "area") && !Contains(k, "count"))
  }

  /** Index of the first key whose value `_get_first` accepts, or -1. */
  function FirstUsable(data: Dict, keys: seq<string>): (r: int)
    ensures -1 <= r < |keys|
    ensures r >= 0 ==> Usable(keys[r], Get(data, keys[r]))
    ensures forall j :: 0 <= j < |keys| && (r == -1 || j < r) ==> !Usable(keys[j], Get(data, keys[j]))
  {
    if keys == [] then -1
    else if Usable(keys[0], Get(data, keys[0])) then 0
    else
      var t := FirstUsable(data, keys[1..]);
      if t == -1 then -1 else t + 1
  }

  /** `_get_first(data, *keys)`: the value of the first usable key, or None. */
  function GetFirst(data: Dict, keys: seq<string>): (r: Value)
    ensures r == Null <==> forall i :: 0 <= i < |keys| ==> !Usable(keys[i], Get(data, keys[i]))
    ensures r != Null ==> exists i :: (0 <= i < |keys| && Usable(keys[i], Get(data, keys[i]))
      && r == Get(data, keys[i]) && forall j :: 0 <= j < i ==> !Usable(keys[j], Get(data, keys[j])))
  {
    var i := FirstUsable(data, keys);
    if i < 0 then Null else Get(data, keys[i])
  }

  /** Characters kept by `re.sub(r"[^\d.-]", "", ...)`. */
  predicate IsFloatChar(c: char)
  {
    IsDigit(c) || c == '.' || c == '-'
  }

  /** `re.sub(r"[^\d.-]", "", s)` */
  function FloatChars(s: string): (r: string)
    ensures |r| <= |s|
    ensures forall i :: 0 <= i < |r| ==> IsFloatChar(r[i])
  {
    if s == [] then []
    else (if IsFloatChar(s[0]) then [s[0]] else []) + FloatChars(s[1..])
  }

  /** `_parse_float(val)`: numbers as they are; strings through the character filter. */
  function ParseFloatValue(v: Value): (r: Option<real>)
    ensures v == Null || v.Arr? || v.Obj? ==> r.None?
    ensures IsNumber(v) ==> r == Some(AsReal(v))
  {
    if IsNumber(v) then Some(AsReal(v))
    else if v.Str? then Numbers.ParseFloat(FloatChars(Without(v.s, {','})))
    else None
  }

  lemma {:induction false} FloatCharsOfFloatChars(s: string)
    requires forall i :: 0 <= i < |s| ==> IsFloatChar(s[i])
    ensures FloatChars(s) == s
  {
    if s != [] {
      FloatCharsOfFloatChars(s[1..]);
    }
  }

  lemma {:induction false} FloatCharsConcat(a: string, b: string)
    ensures FloatChars(a + b) == FloatChars(a) + FloatChars(b)
  {
    if a != [] {
      FloatCharsConcat(a[1..], b);
      assert (a + b)[1..] == a[1..] + b;
    } else {
      assert a + b == b;
    }
  }

  lemma {:induction false} FloatCharsOfNone(s: string)
    requires forall i :: 0 <= i < |s| ==> !IsFloatChar(s[i])
    ensures FloatChars(s) == []
  {
    if s != [] {
      FloatCharsOfNone(s[1..]);
    }
  }

  lemma {:induction false} WithoutCommaOfDigits(s: string)
    requires AllDigits(s)
    ensures Without(s, {','}) == s
  {
    WithoutNoop(s, {','});
  }

  /**
   * A whole number followed by a unit (or any text without digits, points or minus signs),
   * such as "330 ㎡", is read as that number.
   */
  lemma ParseFloatReadsNumberWithUnit(n: nat, unit: string)
    requires forall i :: 0 <= i < |unit| ==> !IsFloatChar(unit[i])
    ensures ParseFloatValue(Str(NatToString(n) + unit)) == Some(n as real)
  {
    var digits := NatToString(n);
    NatToStringRoundTrip(n);
    assert Without(digits + unit, {','}) == digits + Without(unit, {','}) by {
      WithoutConcat(digits, unit, {','});
      WithoutCommaOfDigits(digits);
    }
    var u := Without(unit, {','});
    forall i | 0 <= i < |u|
      ensures !IsFloatChar(u[i])
    {
      assert u[i] in unit;
    }
    FloatCharsConcat(digits, u);
    FloatCharsOfFloatChars(digits);
    FloatCharsOfNone(u);
    assert digits + [] == digits;
    Numbers.ParseFloatOfNat(n);
  }

  // ================================================================== corporation heuristics

  /** `CORP_KEYWORDS`, duplicates included, in its source order (written in parts). */
  const CorpKeywords: seq<string> :=
    CorpForms + CorpBusiness + CorpEnglish + CorpExtended1 + CorpExtended2 + CorpExtended3 + CorpSuffixForms

  const CorpForms: seq<string> := [
    "건설", "법인", "주식회사", "(주)", "㈜", "유한회사", "합명회사",
    "합자회사", "사단법인", "재단법인", "농협", "조합", "코퍼레이션"
  ]

  const CorpBusiness: seq<string> := [
    "개발", "산업", "부동산", "투자", "홀딩스", "그룹", "에셋", "종합",
    "엔지니어링", "건축", "토건", "주택", "디벨로퍼", "파트너스", "자산"
  ]

  const CorpEnglish: seq<string> := ["corporation", "corp", "inc", "ltd", "llc", "holdings", "company"]

  const CorpExtended1: seq<string> := [
    "공사", "공단", "재단", "학교법인", "의료법인", "종교법인",
    "시행사", "시행", "분양", "하우징", "리얼티", "프로퍼티", "PMC"
  ]

  const CorpExtended2: seq<string> := [
    "AMC", "REITs", "리츠", "신탁", "캐피탈", "금융", "저축은행",
    "상사", "물산", "상호", "테크", "이엔지", "E&C", "ENG", "건영"
  ]

  const CorpExtended3: seq<string> := [
    "종건", "특수법인", "비영리법인", "공익법인", "사회적기업",
    "협동조합", "영농조합", "어업회사", "산림조합", "수협", "신협"
  ]

  const CorpSuffixForms: seq<string> := ["주)", "㈜", "(유)", "㈜", "Co.", "Co.,Ltd", "Ltd.", "Inc."]

  /** The shapes of `CORP_PATTERNS`, each searched case-insensitively. */
  datatype CorpPattern =
    | Spaced(first: string, second: string)  // first \s* second
    | Literal(text: string)                    // an escaped literal
    | Suffix(tail: string)                     // .* tail $

  const CorpPatterns: seq<CorpPattern> := [
    Spaced("주식", "회사"), Literal("(주)"), Literal("㈜"), Spaced("유한", "회사"), Literal("(유)"),
    Spaced("합자", "회사"), Spaced("합명", "회사"), Spaced("사단", "법인"), Spaced("재단", "법인"),
    Suffix("건설"), Suffix("개발"), Suffix("산업"), Suffix("건축"), Suffix("토건"),
    Suffix("E&C"), Suffix("ENG"), Suffix("건영")
  ]

  /** The name endings tried last by `_detect_corporation_from_name`. */
  const NameSuffixes: seq<string> :=
    ["건설", "개발", "산업", "건축", "토건", "주택", "부동산", "E&C", "ENG", "건영", "종건", "물산", "상사", "테크"]

  /** The keywords looked for in the owner section by `_detect_corporation_from_text`. */
  const OwnerSectionKeys: seq<string> := ["건설", "주식회사", "(주)", "㈜", "개발", "산업", "법인"]

  /** Stage 1: some keyword occurs in the lower-cased input or, as written, in the normalised one. */
  predicate KeywordStage(keys: seq<string>, raw: string, normalized: string)
  {
    exists i :: 0 <= i < |keys| && (Contains(Lower(raw), Lower(keys[i])) || Contains(normalized, keys[i]))
  }

  /** `a\s*b` occurs in `s`. */
  predicate SpacedIn(s: string, a: string, b: string)
  {
    exists i, j :: 0 <= i <= j <= |s| && i + |a| <= j && OccursAt(s, a, i)
      && AllSpace(s[i + |a|..j]) && OccursAt(s, b, j)
  }

  /** `re.search(pattern, s, re.IGNORECASE)`, with ASCII case folding. */
  predicate PatternMatches(p: CorpPattern, s: string)
  {
    match p
    case Spaced(a, b) => SpacedIn(Lower(s), Lower(a), Lower(b))
    case Literal(t) => Contains(Lower(s), Lower(t))
    case Suffix(t) => EndsWith(Lower(s), Lower(t))
  }

  /** Stage 2: some pattern is found in the normalised input. */
  predicate PatternStage(patterns: seq<CorpPattern>, normalized: string)
  {
    exists i :: 0 <= i < |patterns| && PatternMatches(patterns[i], normalized)
  }

  /** Stage 3 of the name check: the normalised name ends with one of the suffixes. */
  predicate SuffixStage(suffixes: seq<string>, normalized: string)
  {
    exists i :: 0 <= i < |suffixes| && EndsWith(normalized, suffixes[i])
  }

  /** `name.replace(" ", "").replace("\n", "").strip()` */
  function NameNormalize(name: string): string
  {
    Strip(Squeeze(name))
  }

  /** `_detect_corporation_from_name(name)` */
  predicate DetectCorporationFromName(name: string)
  {
    name != [] &&
    (KeywordStage(CorpKeywords, name, NameNormalize(name))
     || PatternStage(CorpPatterns, NameNormalize(name))
     || SuffixStage(NameSuffixes, NameNormalize(name)))
  }

  /**
   * The length of the label of `(소유자|소유주|성명|상호)` that starts at `i`, or 0 when
   * none does (at most one can start at a given position).
   */
  function LabelAt(n: string, i: nat): (l: nat)
    ensures l > 0 ==> i + l <= |n|
    ensures l == 0 <==>
      !(OccursAt(n, "소유자", i) || OccursAt(n, "소유주", i) || OccursAt(n, "성명", i) || OccursAt(n, "상호", i))
  {
    if OccursAt(n, "소유자", i) then 3
    else if OccursAt(n, "소유주", i) then 3
    else if OccursAt(n, "성명", i) then 2
    else if OccursAt(n, "상호", i) then 2
    else 0
  }

  /** `[:\s]*`: how many colons and blanks `s` starts with. */
  function ColonSpaceRun(s: string): (n: nat)
    ensures n <= |s|
    ensures forall i :: 0 <= i < n ==> s[i] == ':' || IsSpace(s[i])
    ensures n == |s| || !(s[n] == ':' || IsSpace(s[n]))
  {
    if s != [] && (s[0] == ':' || IsSpace(s[0])) then 1 + ColonSpaceRun(s[1..]) else 0
  }

  /**
   * The group `(.{1,100})` when the label pattern matches at `i`: up to 100 characters after
   * the greedy `[:\s]*`; at the end of the text the run gives back its last character.
   */
  function SectionAt(n: string, i: nat): (r: Option<string>)
    requires i <= |n|
    ensures r.Some? ==> 1 <= |r.value| <= 100 && Contains(n, r.value)
  {
    var l := LabelAt(n, i);
    if l == 0 then None
    else
      var k := i + l;
      var e := k + ColonSpaceRun(n[k..]);
      if e < |n| then
        var end := if e + 100 < |n| then e + 100 else |n|;
        ContainsSlice(n, e, end);
        Some(n[e..end])
      else if e > k then
        ContainsSlice(n, e - 1, e);
        Some(n[e - 1..e])
      else None
  }

  /** `re.search` of the label pattern from position `i` on: the first position where it matches. */
  function OwnerSectionFrom(n: string, i: nat): (r: Option<string>)
    requires i <= |n|
    ensures r.Some? ==> Contains(n, r.value)
    decreases |n| - i
  {
    var m := SectionAt(n, i);
    if m.Some? then m
    else if i == |n| then None
    else OwnerSectionFrom(n, i + 1)
  }

  /** `_detect_corporation_from_text(text)` */
  predicate DetectCorporationFromText(text: string)
  {
    text != [] &&
    (KeywordStage(CorpKeywords, text, Squeeze(text))
     || PatternStage(CorpPatterns, Squeeze(text))
     || (var section := OwnerSectionFrom(Squeeze(text), 0);
         section.Some? && ContainsAny(section.value, OwnerSectionKeys)))
  }

  /** Every name suffix is itself a corporate keyword. */
  lemma SuffixesAreKeywords()
    ensures forall k :: k in NameSuffixes ==> k in CorpKeywords
  {
    assert CorpForms[0] == "건설";
    assert CorpBusiness[0] == "개발" && CorpBusiness[1] == "산업" && CorpBusiness[2] == "부동산";
    assert CorpBusiness[9] == "건축" && CorpBusiness[10] == "토건" && CorpBusiness[11] == "주택";
    assert CorpExtended2[7] == "상사" && CorpExtended2[8] == "물산" && CorpExtended2[10] == "테크";
    assert CorpExtended2[12] == "E&C" && CorpExtended2[13] == "ENG" && CorpExtended2[14] == "건영";
    assert CorpExtended3[0] == "종건";
  }

  /** Every owner-section keyword is itself a corporate keyword. */
  lemma SectionKeysAreKeywords()
    ensures forall k :: k in OwnerSectionKeys ==> k in CorpKeywords
  {
    assert CorpForms[0] == "건설" && CorpForms[1] == "법인" && CorpForms[2] == "주식회사";
    assert CorpForms[3] == "(주)" && CorpForms[4] == "㈜";
    assert CorpBusiness[0] == "개발" && CorpBusiness[1] == "산업";
  }

  /** A key found in the normalised input is found by stage 1. */
  lemma KeywordStageOf(keys: seq<string>, raw: string, normalized: string, k: string)
    requires k in keys && Contains(normalized, k)
    ensures KeywordStage(keys, raw, normalized)
  {
    var i :| 0 <= i < |keys| && keys[i] == k;
  }

  /**
   * The suffix stage of the name check never decides anything: every suffix is a corporate
   * keyword, and a suffix of the normalised name occurs in it.
   */
  lemma NameSuffixStageSubsumed(name: string)
    ensures DetectCorporationFromName(name) <==>
      name != [] && (KeywordStage(CorpKeywords, name, NameNormalize(name)) || PatternStage(CorpPatterns, NameNormalize(name)))
  {
    var n := NameNormalize(name);
    if name != [] && SuffixStage(NameSuffixes, n) {
      var i :| 0 <= i < |NameSuffixes| && EndsWith(n, NameSuffixes[i]);
      EndsWithContains(n, NameSuffixes[i]);
      SuffixesAreKeywords();
      KeywordStageOf(CorpKeywords, name, n, NameSuffixes[i]);
    }
  }

  /**
   * The owner-section stage of the text check never decides anything either: its keywords
   * are corporate keywords and the section is a substring of the normalised text.
   */
  lemma TextOwnerStageSubsumed(text: string)
    ensures DetectCorporationFromText(text) <==>
      text != [] && (KeywordStage(CorpKeywords, text, Squeeze(text)) || PatternStage(CorpPatterns, Squeeze(text)))
  {
    var n := Squeeze(text);
    var section := OwnerSectionFrom(n, 0);
    if text != [] && section.Some? && ContainsAny(section.value, OwnerSectionKeys) {
      var k :| k in OwnerSectionKeys && Contains(section.value, k);
      ContainsTrans(n, section.value, k);
      SectionKeysAreKeywords();
      KeywordStageOf(CorpKeywords, text, n, k);
    }
  }

  /** A name holding "주식회사" is a corporation, with or without spaces around it. */
  lemma StockCompanyIsCorporation(a: string, b: string)
    ensures DetectCorporationFromName(a + "주식회사" + b)
  {
    var name := a + "주식회사" + b;
    ContainsSelfConcat(a, "주식회사", b);
    assert Lower("주식회사") == "주식회사";
    assert CorpForms[2] == "주식회사";
    assert "주식회사" in CorpKeywords;
    var i :| 0 <= i < |CorpKeywords| && CorpKeywords[i] == "주식회사";
    assert Contains(Lower(name), Lower(CorpKeywords[i])) by {
      LowerConcat(a, "주식회사");
      LowerConcat(a + "주식회사", b);
      ContainsSelfConcat(Lower(a), "주식회사", Lower(b));
    }
  }

  // ================================================================== as-built materials

  /** `_AS_BUILT_PLACEHOLDERS` */
  const Placeholders: seq<string> := ["자재명", "미확인", "추출 필요", "추출필요", "없음", "-", "null", "none", "?"]

  /** `str(val).strip().lower()` */
  function MaterialText(v: Value): string
  {
    Lower(Strip(DualAnalysis.Render(v)))
  }

  /** A placeholder makes up (almost) all of the text: it occurs and at most two characters are left. */
  predicate IsPlaceholderText(s: string)
  {
    exists i :: 0 <= i < |Placeholders| && Contains(s, Placeholders[i]) && |s| <= |Placeholders[i]| + 2
  }

  /**
   * `_is_real_material(val)`: a material name read from the drawing, i.e. a truthy value
   * whose text is not blank, not a null word and not a placeholder with at most two extra
   * characters.
   */
  predicate IsRealMaterial(v: Value)
  {
    Truthy(v) && Strip(DualAnalysis.Render(v)) != []
    && MaterialText(v) !in NullWords
    && !IsPlaceholderText(MaterialText(v))
  }

  lemma PlaceholdersAreShort()
    ensures forall i :: 0 <= i < |Placeholders| ==> |Placeholders[i]| <= 5
  {
  }

  /** Any name of eight or more characters (after stripping) is accepted. */
  lemma LongNamesAreReal(v: Value)
    requires Truthy(v) && |Strip(DualAnalysis.Render(v))| >= 8
    ensures IsRealMaterial(v)
  {
    var t := MaterialText(v);
    assert |t| == |Strip(DualAnalysis.Render(v))|;
    LongTextIsNoPlaceholder(t);
  }

  /** A text of eight or more characters is neither a null word nor a placeholder. */
  lemma LongTextIsNoPlaceholder(t: string)
    requires |t| >= 8
    ensures t !in NullWords && !IsPlaceholderText(t)
  {
    PlaceholdersAreShort();
  }

  /**
   * A value whose stripped, lower-cased text is a placeholder is rejected (for instance
   * " None " or "?"), as are None and the empty string.
   */
  lemma PlaceholdersAreRejected(v: Value)
    requires MaterialText(v) in Placeholders
    ensures !IsRealMaterial(v)
    ensures !IsRealMaterial(Null) && !IsRealMaterial(Str(""))
  {
    var t := MaterialText(v);
    ContainsSelfConcat([], t, []);
    assert [] + t + [] == t;
  }

  // ================================================================== merge by category

  /** `DocumentInfo`: one category's pages, its extracted data and the model's confidence. */
  datatype DocumentInfo = DocumentInfo(docType: DocType, pages: seq<int>, mergedData: Value, confidence: real)

  function Identity(x: int): int { x }

  /** The category of each document, in input order. */
  function Types(docs: seq<DocumentInfo>): (r: seq<DocType>)
    ensures |r| == |docs|
    ensures forall i :: 0 <= i < |docs| ==> r[i] == docs[i].docType
  {
    if docs == [] then [] else Types(docs[..|docs| - 1]) + [docs[|docs| - 1].docType]
  }

  /** The categories of `docs`, in order of first appearance (the key order of `by_type`). */
  function TypesInOrder(docs: seq<DocumentInfo>): seq<DocType>
  {
    Dedup(Types(docs))
  }

  /** `by_type[t]`: the documents of category `t`, in input order. */
  function Group(docs: seq<DocumentInfo>, t: DocType): (g: seq<DocumentInfo>)
    ensures |g| <= |docs|
    ensures forall i :: 0 <= i < |g| ==> g[i].docType == t && g[i] in docs
  {
    if docs == [] then []
    else Group(docs[..|docs| - 1], t) + (if docs[|docs| - 1].docType == t then [docs[|docs| - 1]] else [])
  }

  /** The dict a document contributes: its data, or the first element of a list of dicts. */
  function RawDict(v: Value): Option<Dict>
  {
    if v.Arr? && v.items != [] && v.items[0].Obj? then Some(v.items[0].fields)
    else if v.Obj? then Some(v.fields)
    else None
  }

  /**
   * One pass of the fill loop: a key of `raw` is written when its value is not a hole and
   * the merged dict lacks the key or holds a hole there.
   */
  function Fill(acc: Dict, raw: Dict): (r: Dict)
    ensures r.Keys == acc.Keys + Written(raw)
  {
    map k | k in acc.Keys + Written(raw) ::
      if k in raw && !IsHole(raw[k]) && (k !in acc || IsHole(acc[k])) then raw[k] else acc[k]
  }

  /** The keys of `raw` whose values are not holes. */
  function Written(raw: Dict): set<string>
  {
    set k | k in raw && !IsHole(raw[k])
  }

  /** The merged data of a group: every document's dict filled in, in order. */
  function FillAll(group: seq<DocumentInfo>): Dict
  {
    if group == [] then map[]
    else
      var prev := FillAll(group[..|group| - 1]);
      var raw := RawDict(group[|group| - 1].mergedData);
      if raw.Some? then Fill(prev, raw.value) else prev
  }

  /** `all_pages`: the pages of the group, concatenated in order. */
  function AllPages(group: seq<DocumentInfo>): seq<int>
  {
    if group == [] then [] else AllPages(group[..|group| - 1]) + group[|group| - 1].pages
  }

  /** `max(d.confidence for d in group)` */
  function MaxConfidence(group: seq<DocumentInfo>): (m: real)
    requires group != []
    ensures forall i :: 0 <= i < |group| ==> group[i].confidence <= m
    ensures exists i :: 0 <= i < |group| && group[i].confidence == m
  {
    if |group| == 1 then group[0].confidence
    else
      var m := MaxConfidence(group[..|group| - 1]);
      var c := group[|group| - 1].confidence;
      if c > m then c else m
  }

  /** The entry of one category: a single document as it is, several merged. */
  function MergeGroup(group: seq<DocumentInfo>): DocumentInfo
    requires group != []
  {
    if |group| == 1 then group[0]
    else DocumentInfo(group[0].docType, Sorting.SortBy(AllPages(group), Identity), Obj(FillAll(group)),
      MaxConfidence(group))
  }

  /** One fill pass over the keys of `raw`, as the loop over `raw.items()` does it. */
  method FillFrom(acc: Dict, raw: Dict) returns (merged: Dict)
    ensures merged == Fill(acc, raw)
  {
    merged := acc;
    var rest := raw.Keys;
    while rest != {}
      invariant rest <= raw.Keys
      invariant forall k :: k in merged <==> k in acc || (k in raw && k !in rest && !IsHole(raw[k]))
      invariant forall k :: k in merged ==>
        merged[k] == if k in raw && k !in rest && !IsHole(raw[k]) && (k !in acc || IsHole(acc[k])) then raw[k] else acc[k]
      decreases rest
    {
      var k :| k in rest;
      var v := raw[k];
      if !IsHole(v) && (k !in merged || IsHole(merged[k])) {
        merged := merged[k := v];
      }
      rest := rest - {k};
    }
    assert merged.Keys == Fill(acc, raw).Keys;
  }

  /** The merge of one group of two or more documents. */
  method MergeGroupOf(group: seq<DocumentInfo>) returns (doc: DocumentInfo)
    requires group != []
    ensures doc == MergeGroup(group)
  {
    if |group| == 1 {
      return group[0];
    }
    var allPages: seq<int> := [];
    var data: Dict := map[];
    for i := 0 to |group|
      invariant allPages == AllPages(group[..i])
      invariant data == FillAll(group[..i])
    {
      assert group[..i + 1][..i] == group[..i];
      allPages := allPages + group[i].pages;
      var raw := RawDict(group[i].mergedData);
      if raw.Some? {
        data := FillFrom(data, raw.value);
      }
    }
    assert group[..|group|] == group;
    doc := DocumentInfo(group[0].docType, Sorting.SortBy(allPages, Identity), Obj(data), MaxConfidence(group));
  }

  /** The grouping loop of `_merge_documents_by_type`: `by_type`, with its key order. */
  method GroupByType(documents: seq<DocumentInfo>) returns (byType: map<DocType, seq<DocumentInfo>>, order: seq<DocType>)
    ensures order == TypesInOrder(documents)
    ensures forall t :: t in byType <==> t in order
    ensures forall t :: t in byType ==> byType[t] == Group(documents, t) && byType[t] != []
  {
    byType := map[];
    order := [];
    for i := 0 to |documents|
      invariant order == TypesInOrder(documents[..i])
      invariant forall t :: t in byType <==> t in order
      invariant forall t :: t in byType ==> byType[t] == Group(documents[..i], t) && byType[t] != []
    {
      var d := documents[i];
      var prefix := documents[..i + 1];
      assert prefix[..i] == documents[..i];
      assert Types(prefix)[..i] == Types(documents[..i]);
      if d.docType !in byType {
        DedupSpec(Types(documents[..i]));
        GroupEmpty(documents[..i], d.docType);
        byType := byType[d.docType := []];
        order := order + [d.docType];
      }
      byType := byType[d.docType := byType[d.docType] + [d]];
      GroupOfOther(prefix, d.docType);
    }
    assert documents[..|documents|] == documents;
  }

  /**
   * `_merge_documents_by_type(documents)`: one entry per category, in order of first
   * appearance, each the merge of that category's documents.
   */
  method MergeDocumentsByType(documents: seq<DocumentInfo>) returns (merged: seq<DocumentInfo>)
    ensures |merged| == |TypesInOrder(documents)|
    ensures forall i :: 0 <= i < |merged| ==>
      Group(documents, TypesInOrder(documents)[i]) != []
      && merged[i] == MergeGroup(Group(documents, TypesInOrder(documents)[i]))
  {
    var byType, order := GroupByType(documents);
    assert forall i :: 0 <= i < |order| ==> order[i] in byType;
    var groups := seq(|order|, i requires 0 <= i < |order| => byType[order[i]]);
    merged := MergeEach(groups);
  }

  /** The merge of each group in turn. */
  method MergeEach(groups: seq<seq<DocumentInfo>>) returns (merged: seq<DocumentInfo>)
    requires forall i :: 0 <= i < |groups| ==> groups[i] != []
    ensures |merged| == |groups|
    ensures forall i :: 0 <= i < |groups| ==> merged[i] == MergeGroup(groups[i])
  {
    merged := [];
    for j := 0 to |groups|
      invariant |merged| == j
      invariant forall k :: 0 <= k < j ==> merged[k] == MergeGroup(groups[k])
    {
      var doc := MergeGroupOf(groups[j]);
      merged := merged + [doc];
    }
  }

  lemma {:induction false} GroupEmpty(docs: seq<DocumentInfo>, t: DocType)
    requires t !in Types(docs)
    ensures Group(docs, t) == []
  {
    if docs != [] {
      var init := docs[..|docs| - 1];
      assert Types(docs) == Types(init) + [docs[|docs| - 1].docType];
      GroupEmpty(init, t);
    }
  }

  lemma GroupOfOther(docs: seq<DocumentInfo>, t: DocType)
    requires docs != [] && docs[|docs| - 1].docType == t
    ensures Group(docs, t) == Group(docs[..|docs| - 1], t) + [docs[|docs| - 1]]
    ensures forall u :: u != t ==> Group(docs, u) == Group(docs[..|docs| - 1], u)
  {
  }

  // ------------------------------------------------------------------ merge laws

  /** Document `d` offers a value for key `k`: its dict has `k` bound to a non-hole. */
  predicate Provides(d: DocumentInfo, k: string)
  {
    var raw := RawDict(d.mergedData);
    raw.Some? && k in raw.value && !IsHole(raw.value[k])
  }

  /** None, "" and [] are never written into the merged data. */
  lemma {:induction false} FillAllHasNoHoles(group: seq<DocumentInfo>)
    ensures forall k :: k in FillAll(group) ==> !IsHole(FillAll(group)[k])
  {
    if group != [] {
      FillAllHasNoHoles(group[..|group| - 1]);
    }
  }

  /** A key no document offers is absent from the merged data. */
  lemma {:induction false} FillAllAbsent(group: seq<DocumentInfo>, k: string)
    requires forall i :: 0 <= i < |group| ==> !Provides(group[i], k)
    ensures k !in FillAll(group)
  {
    if group != [] {
      FillAllAbsent(group[..|group| - 1], k);
    }
  }

  /**
   * Fill-only: the merged value of a key is the one the first offering document gives;
   * later documents never overwrite it.
   */
  lemma {:induction false} FillAllFirstWins(group: seq<DocumentInfo>, k: string, j: nat)
    requires j < |group| && Provides(group[j], k)
    requires forall i :: 0 <= i < j ==> !Provides(group[i], k)
    ensures k in FillAll(group) && FillAll(group)[k] == RawDict(group[j].mergedData).value[k]
  {
    var init := group[..|group| - 1];
    if j < |group| - 1 {
      FillAllFirstWins(init, k, j);
      FillAllHasNoHoles(init);
    } else {
      FillAllAbsent(init, k);
    }
  }

  /** A category has documents exactly when some input document is of that category. */
  lemma {:induction false} GroupNonEmptyIff(docs: seq<DocumentInfo>, t: DocType)
    ensures Group(docs, t) != [] <==> t in Types(docs)
  {
    if docs != [] {
      var init := docs[..|docs| - 1];
      GroupNonEmptyIff(init, t);
      assert Types(docs) == Types(init) + [docs[|docs| - 1].docType];
    }
  }

  /** The merged entry of a category: its type, data, pages and confidence. */
  lemma MergeGroupFacts(docs: seq<DocumentInfo>, t: DocType)
    requires Group(docs, t) != []
    ensures var g := Group(docs, t); var m := MergeGroup(g);
      && m.docType == t
      && (forall i :: 0 <= i < |g| ==> g[i].confidence <= m.confidence)
      && (exists i :: 0 <= i < |g| && g[i].confidence == m.confidence)
      && (|g| == 1 ==> m == g[0])
      && (|g| >= 2 ==>
            m.mergedData == Obj(FillAll(g))
            && Sorting.SortedBy(m.pages, Identity)
            && multiset(m.pages) == multiset(AllPages(g)))
  {
    var g := Group(docs, t);
    if |g| >= 2 {
      Sorting.SortBySorted(AllPages(g), Identity);
      Sorting.SortByPermutes(AllPages(g), Identity);
    }
  }

  /**
   * The merge yields exactly one entry per category present in the input, in order of first
   * appearance.
   */
  lemma OnePerType(docs: seq<DocumentInfo>)
    ensures NoDuplicates(TypesInOrder(docs))
    ensures forall t :: t in TypesInOrder(docs) <==> exists i :: 0 <= i < |docs| && docs[i].docType == t
    ensures forall i :: 0 <= i < |TypesInOrder(docs)| ==> Group(docs, TypesInOrder(docs)[i]) != []
  {
    DedupSpec(Types(docs));
    forall t | t in TypesInOrder(docs)
      ensures Group(docs, t) != []
    {
      GroupNonEmptyIff(docs, t);
    }
  }
}
