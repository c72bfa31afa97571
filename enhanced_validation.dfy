/**
 * `EnhancedValidator`: the 34 numbered review rules applied to one review result.
 *
 * Each rule's contribution is specified by a function `RuleN` of the announcement date and
 * the result as it stands once the corporation flag has been decided (`Prepared`); the
 * validator appends those contributions in the source's order (rule 17 before rule 16,
 * since both sit in one block). A finding is either a hard failure or a manual check;
 * only the latter are mirrored into `manualCheckItems` and get the " [수동확인필요]"
 * suffix in the reported list.
 */
module EnhancedValidation {
  import opened Wrappers
  import opened Text
  import opened Dates
  import opened DataModels
  import opened ApprovalDates

  /** `SEAL_MATCH_THRESHOLD` */
  const SealMatchThreshold: real := 45.0
  /** Lower edge of the borderline band of rule 4. */
  const SealBorderline: real := 42.0
  /** `str(SEAL_MATCH_THRESHOLD)` */
  const ThresholdText: string := "45.0"
  const ManualSuffix: string := " [수동확인필요]"

  /** `EnhancedSupplementaryDocument` */
  datatype Finding = Finding(
    documentName: string, reason: string, ruleNumber: int, confidence: string,
    needsManualCheck: bool, details: Option<string>)

  /** A finding with the default grading: confidence "high", no manual check. */
  function Hard(doc: string, reason: string, rule: int): Finding
  {
    Finding(doc, reason, rule, "high", false, None)
  }

  /** The dict `_add_supplementary` records in `manual_check_items`. */
  datatype ManualCheckItem = ManualCheckItem(document: string, reason: string, rule: int, details: Option<string>)

  function ManualItem(f: Finding): ManualCheckItem
  {
    ManualCheckItem(f.documentName, f.reason, f.ruleNumber, f.details)
  }

  /** The manual-check records that appending `fs` one by one leaves behind. */
  function ManualItems(fs: seq<Finding>): (r: seq<ManualCheckItem>)
    ensures |r| <= |fs|
  {
    if fs == [] then []
    else ManualItems(fs[..|fs| - 1]) + (if fs[|fs| - 1].needsManualCheck then [ManualItem(fs[|fs| - 1])] else [])
  }

  lemma ManualItemsSnoc(fs: seq<Finding>, f: Finding)
    ensures ManualItems(fs + [f]) == ManualItems(fs) + (if f.needsManualCheck then [ManualItem(f)] else [])
  {
    assert (fs + [f])[..|fs|] == fs;
  }

  /** There are no manual-check records exactly when no finding asks for a manual check. */
  lemma {:induction false} ManualItemsEmptyIff(fs: seq<Finding>)
    ensures ManualItems(fs) == [] <==> forall i :: 0 <= i < |fs| ==> !fs[i].needsManualCheck
  {
    if fs != [] {
      var init := fs[..|fs| - 1];
      ManualItemsEmptyIff(init);
      assert forall i :: 0 <= i < |init| ==> init[i] == fs[i];
    }
  }

  // ------------------------------------------------------------------ date helpers

  /** `datetime.strptime(announcement_date, "%Y-%m-%d").date()`; None where it raises. */
  function ParseAnnouncement(s: string): (r: Option<Date>)
    ensures r.Some? ==> ValidDate(r.value)
  {
    Strptime(s, FmtDash)
  }

  /** "%Y-%m-%d", "%Y.%m.%d", "%Y/%m/%d", tried in this order. */
  const DocDateFormats: seq<Format> := [FmtDash, FmtDot, FmtSlash]

  /** `_check_date_validity`: (date on or after the announcement, confidence). */
  function CheckDateValidity(ann: Date, s: Option<string>): (r: (bool, string))
    ensures !NonEmpty(s) ==> r == (false, "manual_check")
    ensures NonEmpty(s) ==> (r.1 == "high" <==> exists k :: 0 <= k < 3 && Strptime(s.value, DocDateFormats[k]).Some?)
    ensures NonEmpty(s) ==> (r == (false, "low") <==> forall k :: 0 <= k < 3 ==> Strptime(s.value, DocDateFormats[k]).None?)
    ensures NonEmpty(s) ==>
      (r.0 <==> var d := FirstParse(s.value, DocDateFormats); d.Some? && !Before(d.value, ann))
  {
    if !NonEmpty(s) then (false, "manual_check")
    else
      var d := FirstParse(s.value, DocDateFormats);
      if d.Some? then (!Before(d.value, ann), "high") else (false, "low")
  }

  /**
   * A date printed in any of the three accepted formats is judged against the
   * announcement with confidence "high".
   */
  lemma CheckDateValidityFormats(ann: Date, d: Date, sep: char)
    requires ValidDate(d) && 1000 <= d.year && (sep == '-' || sep == '.' || sep == '/')
    ensures CheckDateValidity(ann, Some(FormatWith(d, sep))) == (!Before(d, ann), "high")
  {
    var s := FormatWith(d, sep);
    ParseFormatRoundTrip(d, sep);
    if sep != '-' {
      SeparatorMismatch(d, sep, '-');
      assert DocDateFormats[1..] == [FmtDot, FmtSlash];
      if sep == '/' {
        SeparatorMismatch(d, sep, '.');
        assert FirstParse(s, [FmtSlash]) == Some(d);
        assert FirstParse(s, [FmtDot, FmtSlash]) == Some(d);
      } else {
        assert FirstParse(s, [FmtDot, FmtSlash]) == Some(d);
      }
      assert FirstParse(s, DocDateFormats) == FirstParse(s, [FmtDot, FmtSlash]);
    }
  }

  // ------------------------------------------------------------------ corporation detection

  const CorpKeywords: seq<string> := [
    "건설", "법인", "주식회사", "(주)", "㈜", "유한회사", "합명회사",
    "합자회사", "사단법인", "재단법인", "농협", "조합", "코퍼레이션",
    "개발", "산업", "부동산", "투자", "홀딩스", "그룹", "에셋", "종합",
    "엔지니어링", "건축", "토건", "주택", "디벨로퍼", "파트너스", "자산",
    "corporation", "corp", "inc", "ltd", "llc", "holdings", "company"]

  const CorpSuffixes: seq<string> := ["건설", "개발", "산업", "부동산", "투자", "종합", "건축", "주택", "에셋"]

  /** Some keyword, lower-cased, occurs in `text` (`keyword.lower() in text`). */
  predicate HasKeyword(text: string, keys: seq<string>)
  {
    exists k :: k in keys && Contains(text, Lower(k))
  }

  /** The `for keyword in ...: if keyword.lower() in text: ...; break` scan. */
  method ScanKeywords(text: string, keys: seq<string>) returns (found: bool)
    ensures found <==> HasKeyword(text, keys)
  {
    found := false;
    var i := 0;
    while i < |keys|
      invariant 0 <= i <= |keys|
      invariant forall j :: 0 <= j < i ==> !Contains(text, Lower(keys[j]))
    {
      if Contains(text, Lower(keys[i])) {
        found := true;
        return;
      }
      i := i + 1;
    }
  }

  predicate HasSuffix(name: string, suffixes: seq<string>)
  {
    exists k :: k in suffixes && EndsWith(name, k)
  }

  /** The `for suffix in corp_suffixes: if owner_name.endswith(suffix): ...; break` scan. */
  method ScanSuffixes(name: string, suffixes: seq<string>) returns (found: bool)
    ensures found <==> HasSuffix(name, suffixes)
  {
    found := false;
    var i := 0;
    while i < |suffixes|
      invariant 0 <= i <= |suffixes|
      invariant forall j :: 0 <= j < i ==> !EndsWith(name, suffixes[j])
    {
      if EndsWith(name, suffixes[i]) {
        found := true;
        return;
      }
      i := i + 1;
    }
  }

  function OwnerName(res: ReviewResult): string
  {
    res.application.owner.name.GetOr("")
  }

  predicate CorpDocuments(c: CorporateDocuments)
  {
    c.businessRegistration.present || c.corporateRegistry.present || c.corporateSealCertificate.present
  }

  /** Method 2: a corporate keyword anywhere in the owner name. */
  predicate NameHasKeyword(res: ReviewResult)
  {
    OwnerName(res) != [] && HasKeyword(Lower(OwnerName(res)), CorpKeywords)
  }

  /** Address, review summary and applicant display joined by spaces, lower-cased. */
  function OtherFieldsText(res: ReviewResult): string
  {
    Lower(Join([res.propertyAddress.GetOr(""), res.reviewSummary, res.applicantTypeDisplay.GetOr("")], " "))
  }

  /** Method 5: a name of four or more characters, no birth date, a business suffix. */
  predicate NameLooksCorporate(res: ReviewResult)
  {
    var name := OwnerName(res);
    name != [] && |name| >= 4 && !NonEmpty(res.application.owner.birthDate) && HasSuffix(name, CorpSuffixes)
  }

  /** The flag after the cascade: it is only ever raised. */
  predicate DetectCorporation(res: ReviewResult)
  {
    res.corporate.isCorporation || CorpDocuments(res.corporate) || NameHasKeyword(res)
    || HasKeyword(OtherFieldsText(res), CorpKeywords) || NameLooksCorporate(res)
  }

  /**
   * The cascade as the source runs it: documents, owner-name keywords, the corporate seal
   * certificate, then (only while still false) the other fields and the suffix test.
   */
  method DetectCorporationFlag(res: ReviewResult) returns (isCorp: bool)
    ensures isCorp == DetectCorporation(res)
  {
    var corp := res.corporate;
    isCorp := corp.isCorporation;
    if corp.businessRegistration.present || corp.corporateRegistry.present || corp.corporateSealCertificate.present {
      isCorp := true;
    }
    var name := OwnerName(res);
    if name != [] {
      var hit := ScanKeywords(Lower(name), CorpKeywords);
      if hit {
        isCorp := true;
      }
    }
    if corp.corporateSealCertificate.present {
      isCorp := true;
    }
    if !isCorp {
      var hit := ScanKeywords(OtherFieldsText(res), CorpKeywords);
      if hit {
        isCorp := true;
      }
    }
    if !isCorp && name != [] && |name| >= 4 && !NonEmpty(res.application.owner.birthDate) {
      var hit := ScanSuffixes(name, CorpSuffixes);
      if hit {
        isCorp := true;
      }
    }
  }

  /** The result with today's review date and the decided corporation flag. */
  function Prepared(res: ReviewResult, today: string): (p: ReviewResult)
    ensures p.corporate.isCorporation == DetectCorporation(res)
    ensures res.corporate.isCorporation ==> p.corporate.isCorporation
  {
    res.(reviewDate := today, corporate := res.corporate.(isCorporation := DetectCorporation(res)))
  }

  // ------------------------------------------------------------------ rules 1-7

  function Rule1(p: ReviewResult): (es: seq<Finding>)
    ensures es == [] <==> p.application.base.present
    ensures forall e :: e in es ==> e.ruleNumber == 1 && !e.needsManualCheck
  {
    if !p.application.base.present then [Hard("주택매도 신청서", "서류 미제출", 1)] else []
  }

  /** `written_date or issue_date` */
  function WrittenDate(app: HousingSaleApplication): Option<string>
  {
    if NonEmpty(app.writtenDate) then app.writtenDate else app.base.issueDate
  }

  /** `written_date and written_date.strip()` */
  predicate DateWritten(app: HousingSaleApplication)
  {
    var wd := WrittenDate(app);
    NonEmpty(wd) && Strip(wd.value) != []
  }

  function Rule2(ann: Date, p: ReviewResult): (es: seq<Finding>)
    requires ValidDate(ann)
    ensures |es| <= 1 && forall e :: e in es ==> e.ruleNumber == 2
    ensures !p.application.base.present ==> es == []
    ensures p.application.base.present && DateWritten(p.application) ==>
      (es != [] <==> CheckDateValidity(ann, WrittenDate(p.application)) == (false, "high"))
      && (es != [] ==> !es[0].needsManualCheck && es[0].confidence == "high")
    ensures p.application.base.present && !DateWritten(p.application) ==>
      |es| == 1 && es[0].needsManualCheck && es[0].confidence == "manual_check"
  {
    var app := p.application;
    if !app.base.present then []
    else
      var wd := WrittenDate(app);
      if DateWritten(app) then
        var check := CheckDateValidity(ann, wd);
        if !check.0 && check.1 == "high" then
          [Finding("주택매도 신청서", "작성일자가 공고일(" + Iso(ann) + ") 이전", 2, check.1, false,
                   Some("서류상 작성일: " + wd.value))]
        else []
      else
        [Finding("주택매도 신청서", "작성일자가 공고일(" + Iso(ann) + ") 이전 또는 미확인", 2, "manual_check", true,
                 Some("작성일자 미추출 - 수동확인 필요"))]
  }

  /** `sum([bool(owner.name), bool(owner.birth_date), ...])` */
  function OwnerFieldCount(o: OwnerInfo): (n: nat)
    ensures n <= 5
  {
    (if NonEmpty(o.name) then 1 else 0) + (if NonEmpty(o.birthDate) then 1 else 0)
    + (if NonEmpty(o.address) then 1 else 0) + (if NonEmpty(o.phone) then 1 else 0)
    + (if NonEmpty(o.email) then 1 else 0)
  }

  /** Labels of the blank owner fields, in form order. */
  function MissingOwnerFields(o: OwnerInfo): (r: seq<string>)
    ensures |r| == 5 - OwnerFieldCount(o)
  {
    (if !NonEmpty(o.name) then ["성명"] else []) + (if !NonEmpty(o.birthDate) then ["생년월일"] else [])
    + (if !NonEmpty(o.address) then ["주소"] else []) + (if !NonEmpty(o.phone) then ["연락처"] else [])
    + (if !NonEmpty(o.email) then ["이메일"] else [])
  }

  predicate IndividualApplication(p: ReviewResult)
  {
    p.application.base.present && !p.corporate.isCorporation
  }

  function Rule3(p: ReviewResult): (es: seq<Finding>)
    ensures |es| <= 1 && forall e :: e in es ==> e.ruleNumber == 3 && e.needsManualCheck
    ensures !IndividualApplication(p) ==> es == []
    ensures IndividualApplication(p) ==> (es == [] <==> OwnerFieldCount(p.application.owner) >= 3)
  {
    if !IndividualApplication(p) then []
    else
      var o := p.application.owner;
      var n := OwnerFieldCount(o);
      if n == 0 then
        [Finding("주택매도 신청서", "소유자 정보 미기재: 성명·생년월일·주소·연락처·이메일 확인 필요", 3, "manual_check", true,
                 Some("소유자 정보가 전혀 추출되지 않음 - 스캔 품질 확인 또는 수동 입력 필요"))]
      else if n < 3 then
        var missing := MissingOwnerFields(o);
        if missing != [] then
          [Finding("주택매도 신청서", "소유자 정보 일부 미추출: " + Join(missing, ", ") + ManualSuffix, 3, "medium", true,
                   Some("추출된 정보: " + NatToString(n) + "/5개 - OCR 품질 문제 가능"))]
        else []
      else []
  }

  /** Rule 3 marks the owner complete: an individual's application with three or more fields. */
  predicate OwnerCompleted(p: ReviewResult)
  {
    IndividualApplication(p) && OwnerFieldCount(p.application.owner) >= 3
  }

  function Rule4(p: ReviewResult): (es: seq<Finding>)
    ensures |es| <= 1 && forall e :: e in es ==> e.ruleNumber == 4
    ensures !IndividualApplication(p) ==> es == []
    ensures IndividualApplication(p) && p.application.seal.matchRate.Some? ==>
      var rate := p.application.seal.matchRate.value;
      (es == [] <==> rate >= SealMatchThreshold)
      && (SealBorderline <= rate < SealMatchThreshold ==> es[0].needsManualCheck && es[0].confidence == "medium")
      && (rate < SealBorderline ==> !es[0].needsManualCheck && es[0].documentName == "주택매도 신청서 인감")
    ensures IndividualApplication(p) && p.application.seal.matchRate.None? ==>
      (es == [] <==> p.application.seal.certificateExists)
  {
    if !IndividualApplication(p) then []
    else
      var seal := p.application.seal;
      if seal.matchRate.Some? then
        var rate := seal.matchRate.value;
        if rate >= SealMatchThreshold then []
        else if rate >= SealBorderline then
          [Finding("주택매도 신청서 인감", "인감 일치율 경계: " + Fmt1(rate) + "% (기준: " + ThresholdText + "%)", 4, "medium", true,
                   Some("인감 일치율이 기준치 근처 - 육안 확인 권장"))]
        else [Hard("주택매도 신청서 인감", "인감 불일치: " + Fmt1(rate) + "% (기준: " + ThresholdText + "%)", 4)]
      else if !seal.certificateExists then [Hard("본인발급용 인감증명서", "서류 미제출", 4)]
      else []
  }

  /** Rule 4 marks the seal valid: an individual's application with a rate of 45 or more. */
  predicate SealAccepted(p: ReviewResult)
  {
    IndividualApplication(p) && p.application.seal.matchRate.Some? && p.application.seal.matchRate.value >= SealMatchThreshold
  }

  function Rule5(p: ReviewResult): (es: seq<Finding>)
    ensures es != [] <==> p.application.agent.present && !p.application.agent.idCardMatch
    ensures forall e :: e in es ==> e.ruleNumber == 5
  {
    var agent := p.application.agent;
    if agent.present && !agent.idCardMatch then [Hard("대리인신분증사본", "대리인 이름 불일치 또는 미제출", 5)] else []
  }

  /** The values present among the optional areas, in order. */
  function PresentValues(xs: seq<Option<real>>): (r: seq<real>)
    ensures |r| <= |xs|
  {
    if xs == [] then []
    else (if xs[0].Some? then [xs[0].value] else []) + PresentValues(xs[1..])
  }

  function Abs(x: real): real { if x < 0.0 then -x else x }

  /** `all(abs(vals[0] - v) <= tol for v in vals)` */
  predicate AllWithin(vals: seq<real>, tol: real)
    requires vals != []
  {
    forall i :: 0 <= i < |vals| ==> Abs(vals[0] - vals[i]) <= tol
  }

  function LandAreas(p: ReviewResult): seq<real>
  {
    PresentValues([p.application.landArea, p.landLedger.landArea, p.landUsePlan.landArea])
  }

  function Rule6(p: ReviewResult): (es: seq<Finding>)
    ensures |es| <= 1 && forall e :: e in es ==> e.ruleNumber == 6
    ensures p.application.landAreaMatch ==> es == []
    ensures |LandAreas(p)| < 2 ==> es == []
    ensures es != [] <==> (!p.application.landAreaMatch
      && exists i :: 0 <= i < |LandAreas(p)| && Abs(LandAreas(p)[0] - LandAreas(p)[i]) > 0.1)
  {
    var vals := LandAreas(p);
    if |vals| >= 2 && !AllWithin(vals, 0.1) && !p.application.landAreaMatch then
      [Hard("대지면적 불일치", "주택매도신청서, 토지대장, 토지이용계획확인서 간 대지면적 불일치", 6)]
    else []
  }

  /**
   * The application's area and the land ledger's, both read and more than 0.1 apart,
   * are reported unless an analyser already declared the areas matching.
   */
  lemma LandAreasDisagree(p: ReviewResult)
    requires p.application.landArea.Some? && p.landLedger.landArea.Some?
    requires Abs(p.application.landArea.value - p.landLedger.landArea.value) > 0.1
    ensures Rule6(p) != [] <==> !p.application.landAreaMatch
  {
    var xs := [p.application.landArea, p.landLedger.landArea, p.landUsePlan.landArea];
    assert xs[1..][1..] == [p.landUsePlan.landArea];
    assert PresentValues(xs[1..]) == [p.landLedger.landArea.value] + PresentValues(xs[1..][1..]);
    assert LandAreas(p)[1] == p.landLedger.landArea.value;
  }

  /** Same (y, m, d), or same (y, m): the tolerance of rule 7. */
  predicate SameYearMonth(a: Date, b: Date)
  {
    a.year == b.year && a.month == b.month
  }

  /** Rule 7's entry: set false by an analyser, or both dates parsed and in different months. */
  function Rule7(p: ReviewResult): (es: seq<Finding>)
    ensures |es| <= 1 && forall e :: e in es ==> e.ruleNumber == 7 && !e.needsManualCheck
    ensures p.application.approvalDateMatch == Some(true) ==> es == []
    ensures p.application.approvalDateMatch == Some(false) ==> |es| == 1
    ensures p.application.approvalDateMatch.None? && ParseApprovalYmd(p.application.approvalDate).None? ==> es == []
    ensures p.application.approvalDateMatch.None? && ParseApprovalYmd(p.ledgerTitle.approvalDate).None? ==> es == []
    ensures p.application.approvalDateMatch.None? && ParseApprovalYmd(p.application.approvalDate).Some?
              && ParseApprovalYmd(p.ledgerTitle.approvalDate).Some? ==>
      (es == [] <==> SameYearMonth(ParseApprovalYmd(p.application.approvalDate).value,
                                   ParseApprovalYmd(p.ledgerTitle.approvalDate).value))
  {
    var app := p.application;
    var entry := [Hard("주택매도 신청서", "건물사용승인일이 건축물대장 표제부와 불일치", 7)];
    match app.approvalDateMatch
    case Some(m) => if m then [] else entry
    case None =>
      var a := ParseApprovalYmd(app.approvalDate);
      var t := ParseApprovalYmd(p.ledgerTitle.approvalDate);
      if a.Some? && t.Some? && !SameYearMonth(a.value, t.value) then entry else []
  }

  /** `approval_date_match` after rule 7. */
  function Rule7Match(p: ReviewResult): (m: Option<bool>)
    ensures p.application.approvalDateMatch.Some? ==> m == p.application.approvalDateMatch
    ensures p.application.approvalDateMatch.None? ==> (m.None? <==> Rule7(p) != [])
  {
    var app := p.application;
    if app.approvalDateMatch.Some? then app.approvalDateMatch
    else
      var a := ParseApprovalYmd(app.approvalDate);
      var t := ParseApprovalYmd(p.ledgerTitle.approvalDate);
      if a.Some? && t.Some? && !SameYearMonth(a.value, t.value) then None else Some(true)
  }

  // ------------------------------------------------------------------ rules 8-14

  /** One hard finding per unit, named "<doc> (<unit>호)". */
  function PerUnit(units: seq<string>, doc: string, reason: string, rule: int): (es: seq<Finding>)
    ensures |es| == |units|
    ensures forall i :: 0 <= i < |units| ==> es[i] == Hard(doc + " (" + units[i] + "호)", reason, rule)
  {
    seq(|units|, i requires 0 <= i < |units| => Hard(doc + " (" + units[i] + "호)", reason, rule))
  }

  function Rule8(p: ReviewResult): (es: seq<Finding>)
    ensures forall e :: e in es ==> e.ruleNumber == 8
    ensures |es| == |p.rentalStatus.mismatchedUnits|
    ensures forall i :: 0 <= i < |es| ==>
      es[i] == Hard("매도신청주택 임대현황 (" + p.rentalStatus.mismatchedUnits[i] + "호)", "전용면적이 건축물대장 전유부와 불일치", 8)
  {
    PerUnit(p.rentalStatus.mismatchedUnits, "매도신청주택 임대현황", "전용면적이 건축물대장 전유부와 불일치", 8)
  }

  function Rule9(p: ReviewResult): (es: seq<Finding>)
    ensures es != [] <==> p.application.agent.present && !p.powerOfAttorney.base.present
    ensures forall e :: e in es ==> e.ruleNumber == 9
  {
    if p.application.agent.present && !p.powerOfAttorney.base.present then [Hard("위임장", "대리접수이나 위임장 미제출", 9)] else []
  }

  function Rule10(p: ReviewResult): (es: seq<Finding>)
    ensures es != [] <==> (p.powerOfAttorney.base.present && p.powerOfAttorney.landArea.Some?
      && p.application.landArea.Some? && !p.powerOfAttorney.landAreaMatch)
    ensures es != [] ==> es == [Hard("위임장", "소재지 또는 대지면적 오류", 10)]
    ensures forall e :: e in es ==> e.ruleNumber == 10
  {
    var poa := p.powerOfAttorney;
    if poa.base.present && poa.landArea.Some? && p.application.landArea.Some? && !poa.landAreaMatch then
      [Hard("위임장", "소재지 또는 대지면적 오류", 10)]
    else []
  }

  /** `"; ".join(issues)` as a single hard finding, or nothing when there are no issues. */
  function IssuesEntry(doc: string, issues: seq<string>, rule: int): (es: seq<Finding>)
    ensures es == [] <==> issues == []
    ensures es != [] ==> es == [Hard(doc, Join(issues, "; "), rule)]
  {
    if issues == [] then [] else [Hard(doc, Join(issues, "; "), rule)]
  }

  /** Nothing wrong on a power of attorney: both parties complete and sealed, dated after the announcement. */
  predicate PoaClean(poa: PowerOfAttorney)
  {
    poa.delegator.personalInfoComplete && poa.delegator.sealValid
    && poa.delegatee.personalInfoComplete && poa.delegatee.sealValid
    && (NonEmpty(poa.writtenDate) ==> poa.isAfterAnnouncement)
  }

  function PoaIssues(ann: Date, poa: PowerOfAttorney): (r: seq<string>)
    requires ValidDate(ann)
    ensures r == [] <==> PoaClean(poa)
  {
    (if !poa.delegator.personalInfoComplete then ["위임자 인적사항 불완전"] else [])
    + (if !poa.delegator.sealValid then ["위임자 인감 미날인/불일치"] else [])
    + (if !poa.delegatee.personalInfoComplete then ["수임자 인적사항 불완전"] else [])
    + (if !poa.delegatee.sealValid then ["수임자 인감 미날인/불일치"] else [])
    + (if NonEmpty(poa.writtenDate) && !poa.isAfterAnnouncement then ["작성일이 공고일(" + Iso(ann) + ") 이전"] else [])
  }

  function Rule11(ann: Date, p: ReviewResult): (es: seq<Finding>)
    requires ValidDate(ann)
    ensures !p.powerOfAttorney.base.present ==> es == []
    ensures es != [] <==> p.powerOfAttorney.base.present && !PoaClean(p.powerOfAttorney)
    ensures es != [] ==> es == [Hard("위임장", Join(PoaIssues(ann, p.powerOfAttorney), "; "), 11)]
    ensures forall e :: e in es ==> e.ruleNumber == 11
  {
    if p.powerOfAttorney.base.present then IssuesEntry("위임장", PoaIssues(ann, p.powerOfAttorney), 11) else []
  }

  function Rule12To14(p: ReviewResult): (es: seq<Finding>)
    ensures p.corporate.isCorporation ==> es == []
    ensures forall e :: e in es ==> e.ruleNumber in {12, 13, 14}
    ensures es != [] <==> (!p.corporate.isCorporation
      && (!p.ownerIdentity.sealCertificate.present || !p.ownerIdentity.allIdsSubmitted))
    ensures forall e :: e in es && e.documentName == "소유자 신분증 사본" ==>
      e.ruleNumber == (if p.ownerIdentity.ownerCount > 1 then 14 else 13)
  {
    if p.corporate.isCorporation then []
    else
      var ids := p.ownerIdentity;
      (if !ids.sealCertificate.present then [Hard("소유자 인감증명서", "서류 미제출", 12)] else [])
      + (if !ids.allIdsSubmitted then
           [Hard("소유자 신분증 사본", "소유자 " + IntToString(ids.ownerCount) + "명 중 일부 미제출", if ids.ownerCount > 1 then 14 else 13)]
         else [])
  }

  /**
   * An individual owner's missing seal certificate is reported under rule 12, and IDs
   * not all submitted under rule 14 for several owners, else 13.
   */
  lemma OwnerDocumentsReported(p: ReviewResult)
    requires !p.corporate.isCorporation
    ensures Hard("소유자 인감증명서", "서류 미제출", 12) in Rule12To14(p) <==> !p.ownerIdentity.sealCertificate.present
    ensures (exists e :: e in Rule12To14(p) && e.documentName == "소유자 신분증 사본") <==> !p.ownerIdentity.allIdsSubmitted
    ensures !p.ownerIdentity.allIdsSubmitted ==>
      var es := Rule12To14(p);
      es[|es| - 1].ruleNumber == (if p.ownerIdentity.ownerCount > 1 then 14 else 13)
  {
    var es := Rule12To14(p);
    if !p.ownerIdentity.allIdsSubmitted {
      assert es[|es| - 1] in es && es[|es| - 1].documentName == "소유자 신분증 사본";
    }
  }

  // ------------------------------------------------------------------ rules 15-28

  function Rule15And17(p: ReviewResult): (es: seq<Finding>)
    ensures !p.corporate.isCorporation ==> es == []
    ensures forall e :: e in es ==> e.ruleNumber in {15, 17}
    ensures es != [] <==> (p.corporate.isCorporation
      && !(p.corporate.businessRegistration.present && p.corporate.corporateSealCertificate.present
           && p.corporate.corporateRegistry.present && p.corporate.allExecutiveIdsSubmitted
           && p.corporate.contractLimitConsent.present && p.corporate.allExecutivesSigned))
  {
    var corp := p.corporate;
    if !corp.isCorporation then []
    else
      Rule15Part(corp) + Rule17Part(corp)
  }

  /** The rule-17 half: the consent form, then the executives' signatures on it. */
  function Rule17Part(corp: CorporateDocuments): (es: seq<Finding>)
    ensures |es| <= 1 && forall e :: e in es ==> e.ruleNumber == 17
  {
    if !corp.contractLimitConsent.present then [Hard("연간 계약건수 상한 검증용 동의서", "서류 미제출", 17)]
    else if !corp.allExecutivesSigned then [Hard("연간 계약건수 상한 검증용 동의서", "일부 임원 자필서명 누락", 17)]
    else []
  }

  /** Rule 15's findings, which precede the rule-17 one. */
  function Rule15Part(corp: CorporateDocuments): (es: seq<Finding>)
    ensures forall e :: e in es ==> e.ruleNumber == 15
  {
    (if !corp.businessRegistration.present then [Hard("법인용 사업자등록증", "서류 미제출", 15)] else [])
    + (if !corp.corporateSealCertificate.present then [Hard("법인용 인감증명서", "서류 미제출", 15)] else [])
    + (if !corp.corporateRegistry.present then [Hard("법인 등기사항전부증명서", "서류 미제출", 15)] else [])
    + (if !corp.allExecutiveIdsSubmitted then
         [Hard("법인 임원 신분증", "등기 임원 " + IntToString(corp.executiveCount) + "명 중 일부 미제출", 15)]
       else [])
  }

  /** Rule 15: each missing corporate document has its own finding. */
  lemma CorporateDocumentsReported(p: ReviewResult)
    requires p.corporate.isCorporation
    ensures Hard("법인용 사업자등록증", "서류 미제출", 15) in Rule15And17(p) <==> !p.corporate.businessRegistration.present
    ensures Hard("법인용 인감증명서", "서류 미제출", 15) in Rule15And17(p) <==> !p.corporate.corporateSealCertificate.present
    ensures Hard("법인 등기사항전부증명서", "서류 미제출", 15) in Rule15And17(p) <==> !p.corporate.corporateRegistry.present
  {
    var corp := p.corporate;
    var biz, seal, reg := Hard("법인용 사업자등록증", "서류 미제출", 15), Hard("법인용 인감증명서", "서류 미제출", 15),
      Hard("법인 등기사항전부증명서", "서류 미제출", 15);
    assert |biz.documentName| == 10 && |seal.documentName| == 9 && |reg.documentName| == 12;
    var ids := if !corp.allExecutiveIdsSubmitted then
         [Hard("법인 임원 신분증", "등기 임원 " + IntToString(corp.executiveCount) + "명 중 일부 미제출", 15)]
       else [];
    assert forall e :: e in ids ==> |e.documentName| == 9 && e.documentName[3] == '임';
    assert seal.documentName[3] == ' ';
    assert Rule15And17(p) == (if !corp.businessRegistration.present then [biz] else [])
      + (if !corp.corporateSealCertificate.present then [seal] else [])
      + (if !corp.corporateRegistry.present then [reg] else []) + ids + Rule17Part(corp);
  }

  /** Rule 15: executive IDs that are not all submitted give a finding on the executives' IDs. */
  lemma ExecutiveIdsReported(p: ReviewResult)
    requires p.corporate.isCorporation
    ensures (exists e :: e in Rule15And17(p) && e.documentName == "법인 임원 신분증") <==> !p.corporate.allExecutiveIdsSubmitted
  {
    var corp := p.corporate;
    assert Rule15And17(p) == Rule15Part(corp) + Rule17Part(corp);
    if !corp.allExecutiveIdsSubmitted {
      var e := Rule15Part(corp)[|Rule15Part(corp)| - 1];
      assert e in Rule15And17(p) && e.documentName == "법인 임원 신분증";
    }
  }

  /** Rule 17: a missing contract-limit consent, or else a missing executive signature, is reported. */
  lemma ContractConsentReported(p: ReviewResult)
    requires p.corporate.isCorporation
    ensures Hard("연간 계약건수 상한 검증용 동의서", "서류 미제출", 17) in Rule15And17(p)
      <==> !p.corporate.contractLimitConsent.present
    ensures Hard("연간 계약건수 상한 검증용 동의서", "일부 임원 자필서명 누락", 17) in Rule15And17(p)
      <==> p.corporate.contractLimitConsent.present && !p.corporate.allExecutivesSigned
  {
    var corp := p.corporate;
    assert Rule15And17(p) == Rule15Part(corp) + Rule17Part(corp);
  }

  /** Nothing wrong on a consent form; the agent's part only counts when there is an agent. */
  predicate ConsentClean(c: ConsentForm, agentPresent: bool)
  {
    c.ownerSigned && c.ownerSealValid && c.ownerDateValid && (agentPresent ==> c.agentSigned && c.agentSealValid)
  }

  function ConsentIssues(c: ConsentForm, agentPresent: bool): (r: seq<string>)
    ensures r == [] <==> ConsentClean(c, agentPresent)
    ensures "소유자 미작성" in r <==> !c.ownerSigned
    ensures "대리인 미작성" in r <==> agentPresent && !c.agentSigned
  {
    (if !c.ownerSigned then ["소유자 미작성"] else [])
    + (if !c.ownerSealValid then ["소유자 인감 불일치"] else [])
    + (if !c.ownerDateValid then ["소유자 작성일자 오류"] else [])
    + (if agentPresent && !c.agentSigned then ["대리인 미작성"] else [])
    + (if agentPresent && !c.agentSealValid then ["대리인 인감 불일치"] else [])
  }

  function Rule16(p: ReviewResult): (es: seq<Finding>)
    ensures |es| <= 1
    ensures !p.consent.base.present ==> es == [Hard("개인정보 수집 이용 및 제공 동의서", "서류 미제출", 16)]
    ensures es != [] <==> !p.consent.base.present || !ConsentClean(p.consent, p.application.agent.present)
    ensures forall e :: e in es ==> e.ruleNumber == 16
  {
    if !p.consent.base.present then [Hard("개인정보 수집 이용 및 제공 동의서", "서류 미제출", 16)]
    else IssuesEntry("개인정보 수집 이용 및 제공 동의서", ConsentIssues(p.consent, p.application.agent.present), 16)
  }

  function Rule18(p: ReviewResult): (es: seq<Finding>)
    ensures !p.realtor.isRealtorAgent ==> es == []
    ensures forall e :: e in es ==> e.ruleNumber == 18
    ensures es != [] <==> (p.realtor.isRealtorAgent
      && (!p.realtor.officeRegistration.present || !p.realtor.businessRegistration.present || !p.realtor.sealMatchWithApplication))
  {
    var realtor := p.realtor;
    if !realtor.isRealtorAgent then []
    else
      (if !realtor.officeRegistration.present then [Hard("중개사무소 등록증", "서류 미제출", 18)] else [])
      + (if !realtor.businessRegistration.present then [Hard("중개사 사업자등록증", "서류 미제출", 18)] else [])
      + (if !realtor.sealMatchWithApplication then [Hard("중개사무소 등록증", "주택매도신청서와 인감 불일치", 18)] else [])
  }

  /** Each missing realtor document, and a seal mismatch, has its own rule-18 finding. */
  lemma RealtorDocumentsReported(p: ReviewResult)
    requires p.realtor.isRealtorAgent
    ensures Hard("중개사무소 등록증", "서류 미제출", 18) in Rule18(p) <==> !p.realtor.officeRegistration.present
    ensures Hard("중개사 사업자등록증", "서류 미제출", 18) in Rule18(p) <==> !p.realtor.businessRegistration.present
    ensures Hard("중개사무소 등록증", "주택매도신청서와 인감 불일치", 18) in Rule18(p) <==> !p.realtor.sealMatchWithApplication
  {
  }

  /** Nothing wrong on an integrity pledge; agent and realtor parts only count when they take part. */
  predicate PledgeClean(pl: IntegrityPledge, agentPresent: bool, realtorAgent: bool)
  {
    pl.ownerSubmitted && pl.ownerSealValid && pl.ownerIdNumberValid && pl.corporationIdTypeCorrect
    && (agentPresent ==> pl.agentSubmitted) && (realtorAgent ==> pl.realtorSubmitted)
  }

  function PledgeIssues(pl: IntegrityPledge, agentPresent: bool, realtorAgent: bool): (r: seq<string>)
    ensures r == [] <==> PledgeClean(pl, agentPresent, realtorAgent)
    ensures "법인인데 주민등록번호 기재" in r <==> !pl.corporationIdTypeCorrect
    ensures "중개사 미작성" in r <==> realtorAgent && !pl.realtorSubmitted
  {
    (if !pl.ownerSubmitted then ["소유자 미작성"] else [])
    + (if !pl.ownerSealValid then ["소유자 인감 불일치"] else [])
    + (if !pl.ownerIdNumberValid then ["소유자 주민번호/사업자번호 오류"] else [])
    + (if !pl.corporationIdTypeCorrect then ["법인인데 주민등록번호 기재"] else [])
    + (if agentPresent && !pl.agentSubmitted then ["대리인 미작성"] else [])
    + (if realtorAgent && !pl.realtorSubmitted then ["중개사 미작성"] else [])
  }

  function Rule19(p: ReviewResult): (es: seq<Finding>)
    ensures |es| <= 1
    ensures forall e :: e in es ==> e.ruleNumber == 19
    ensures !p.pledge.base.present ==> es == [Hard("청렴서약서", "서류 미제출", 19)]
    ensures es != [] <==> (!p.pledge.base.present
      || !PledgeClean(p.pledge, p.application.agent.present, p.realtor.isRealtorAgent))
  {
    if !p.pledge.base.present then [Hard("청렴서약서", "서류 미제출", 19)]
    else IssuesEntry("청렴서약서", PledgeIssues(p.pledge, p.application.agent.present, p.realtor.isRealtorAgent), 19)
  }

  /**
   * Rule 20. The name and seal checks of the source consult attributes
   * (`_extracted_owner_name`, `_explicit_seal_check`) that the record never has, so only
   * the date check can fire.
   */
  function Rule20(p: ReviewResult): (es: seq<Finding>)
    ensures |es| <= 1
    ensures p.lhConfirmation.base.present && !NonEmpty(p.lhConfirmation.writtenDate) ==> es == []
    ensures forall e :: e in es ==> e.ruleNumber == 20
    ensures es != [] <==> (!p.lhConfirmation.base.present
      || (NonEmpty(p.lhConfirmation.writtenDate) && !p.lhConfirmation.dateValid))
    ensures es != [] ==>
      es == [Hard("공사직원여부 확인서", if p.lhConfirmation.base.present then "작성일자 오류" else "서류 미제출", 20)]
  {
    var lh := p.lhConfirmation;
    if !lh.base.present then [Hard("공사직원여부 확인서", "서류 미제출", 20)]
    else IssuesEntry("공사직원여부 확인서", if NonEmpty(lh.writtenDate) && !lh.dateValid then ["작성일자 오류"] else [], 20)
  }

  function Rule21(p: ReviewResult): (es: seq<Finding>)
    ensures |es| <= 2
    ensures forall e :: e in es ==> e.ruleNumber == 21
    ensures es != [] <==> (p.ledgerSummary.required && !p.ledgerSummary.base.present) || !p.ledgerTitle.base.present
  {
    (if p.ledgerSummary.required && !p.ledgerSummary.base.present then
       [Hard("건축물대장 총괄표제부", "여러 동 건물이나 총괄표제부 미제출", 21)] else [])
    + (if !p.ledgerTitle.base.present then [Hard("건축물대장 표제부", "서류 미제출", 21)] else [])
  }

  /** A required summary ledger and the title ledger are each reported when missing. */
  lemma LedgersReported(p: ReviewResult)
    ensures Hard("건축물대장 총괄표제부", "여러 동 건물이나 총괄표제부 미제출", 21) in Rule21(p)
      <==> p.ledgerSummary.required && !p.ledgerSummary.base.present
    ensures Hard("건축물대장 표제부", "서류 미제출", 21) in Rule21(p) <==> !p.ledgerTitle.base.present
  {
  }

  function Rule22(p: ReviewResult): (es: seq<Finding>)
    ensures forall e :: e in es ==> e.ruleNumber == 22
    ensures |es| == |p.ledgerExclusive.invalidAreaUnits|
    ensures forall i :: 0 <= i < |es| ==>
      es[i] == Hard("건축물대장 전유부 (" + p.ledgerExclusive.invalidAreaUnits[i] + "호)", "전용면적이 16㎡ 미만 또는 85㎡ 초과", 22)
  {
    PerUnit(p.ledgerExclusive.invalidAreaUnits, "건축물대장 전유부", "전용면적이 16㎡ 미만 또는 85㎡ 초과", 22)
  }

  function Rule23(p: ReviewResult): (es: seq<Finding>)
    ensures es != [] <==> !p.layoutPlan.base.present
    ensures forall e :: e in es ==> e.ruleNumber == 23
  {
    if !p.layoutPlan.base.present then [Hard("건축물현황도", "서류 미제출", 23)] else []
  }

  /** "Parcels missing" needs explicit evidence: a missing list or differing non-zero counts. */
  predicate PartsMissing(allSubmitted: bool, missing: seq<string>, total: int, submitted: int)
  {
    !allSubmitted && (missing != [] || (total != 0 && submitted != 0 && total != submitted))
  }

  function Rule24(ann: Date, p: ReviewResult): (es: seq<Finding>)
    requires ValidDate(ann)
    ensures |es| <= 1
    ensures forall e :: e in es ==> e.ruleNumber == 24 && e.documentName == "토지대장"
    ensures !p.landLedger.base.present ==> es == [Hard("토지대장", "서류 미제출", 24)]
    ensures es != [] <==> (!p.landLedger.base.present
      || (!p.landLedger.isAfterAnnouncement && NonEmpty(p.landLedger.base.issueDate))
      || PartsMissing(p.landLedger.allParcelsSubmitted, p.landLedger.missingParcels, p.landLedger.totalParcels, p.landLedger.submittedParcels))
  {
    var land := p.landLedger;
    if !land.base.present then [Hard("토지대장", "서류 미제출", 24)]
    else
      IssuesEntry("토지대장",
        (if !land.isAfterAnnouncement && NonEmpty(land.base.issueDate) then ["발급일이 공고일(" + Iso(ann) + ") 이전"] else [])
        + (if PartsMissing(land.allParcelsSubmitted, land.missingParcels, land.totalParcels, land.submittedParcels) then ["필지 누락"] else []),
        24)
  }

  function ExclusionZones(u: LandUsePlan): (r: seq<string>)
    ensures r == [] <==> !(u.isRedevelopmentZone || u.isMaintenanceZone || u.isPublicHousingZone || u.isHousingDevelopmentZone)
    ensures "정비구역" in r <==> u.isMaintenanceZone
    ensures "공공주택지구" in r <==> u.isPublicHousingZone
  {
    (if u.isRedevelopmentZone then ["재정비촉진지구"] else [])
    + (if u.isMaintenanceZone then ["정비구역"] else [])
    + (if u.isPublicHousingZone then ["공공주택지구"] else [])
    + (if u.isHousingDevelopmentZone then ["택지개발지구"] else [])
  }

  function Rule25(p: ReviewResult): (es: seq<Finding>)
    ensures |es| <= 2
    ensures forall e :: e in es ==> e.ruleNumber == 25 && e.documentName == "토지이용계획확인원"
    ensures !p.landUsePlan.base.present ==> es == [Hard("토지이용계획확인원", "서류 미제출", 25)]
    ensures es != [] <==> (!p.landUsePlan.base.present
      || PartsMissing(p.landUsePlan.allParcelsSubmitted, p.landUsePlan.missingParcels, p.landUsePlan.totalParcels, p.landUsePlan.submittedParcels)
      || ExclusionZones(p.landUsePlan) != [])
  {
    var u := p.landUsePlan;
    if !u.base.present then [Hard("토지이용계획확인원", "서류 미제출", 25)]
    else
      (if PartsMissing(u.allParcelsSubmitted, u.missingParcels, u.totalParcels, u.submittedParcels) then
         [Hard("토지이용계획확인원", "필지 누락", 25)] else [])
      + (var zones := ExclusionZones(u);
         if zones != [] then [Hard("토지이용계획확인원", "제외 대상 구역 해당: " + Join(zones, ", "), 25)] else [])
  }

  /** On a present plan, missing parcels and exclusion zones each give their own finding. */
  lemma LandUsePlanReported(p: ReviewResult)
    requires p.landUsePlan.base.present
    ensures var u := p.landUsePlan;
      Hard("토지이용계획확인원", "필지 누락", 25) in Rule25(p)
      <==> PartsMissing(u.allParcelsSubmitted, u.missingParcels, u.totalParcels, u.submittedParcels)
    ensures var zones := ExclusionZones(p.landUsePlan);
      Hard("토지이용계획확인원", "제외 대상 구역 해당: " + Join(zones, ", "), 25) in Rule25(p) <==> zones != []
  {
  }

  function Rule26(p: ReviewResult): (es: seq<Finding>)
    ensures |es| <= 1
    ensures forall e :: e in es ==> e.ruleNumber == 26
    ensures es != [] <==> (!p.landRegistry.base.present
      || PartsMissing(p.landRegistry.allParcelsSubmitted, p.landRegistry.missingParcels, p.landRegistry.totalParcels, p.landRegistry.submittedParcels))
    ensures es != [] ==>
      es == [Hard("토지 등기부등본", if p.landRegistry.base.present then "필지 누락" else "서류 미제출", 26)]
  {
    var r := p.landRegistry;
    if !r.base.present then [Hard("토지 등기부등본", "서류 미제출", 26)]
    else if PartsMissing(r.allParcelsSubmitted, r.missingParcels, r.totalParcels, r.submittedParcels) then
      [Hard("토지 등기부등본", "필지 누락", 26)]
    else []
  }

  function Rule27(p: ReviewResult): (es: seq<Finding>)
    ensures |es| <= 1
    ensures forall e :: e in es ==> e.ruleNumber == 27
    ensures es != [] <==> (!p.buildingRegistry.base.present
      || PartsMissing(p.buildingRegistry.allUnitsSubmitted, p.buildingRegistry.missingUnits, p.buildingRegistry.totalUnits, p.buildingRegistry.submittedUnits))
    ensures es != [] ==>
      es == [Hard("건물 등기부등본", if p.buildingRegistry.base.present then "호수 누락" else "서류 미제출", 27)]
  {
    var r := p.buildingRegistry;
    if !r.base.present then [Hard("건물 등기부등본", "서류 미제출", 27)]
    else if PartsMissing(r.allUnitsSubmitted, r.missingUnits, r.totalUnits, r.submittedUnits) then
      [Hard("건물 등기부등본", "호수 누락", 27)]
    else []
  }

  function Rule28(p: ReviewResult): (es: seq<Finding>)
    ensures !p.trust.trustRequired ==> es == []
    ensures |es| <= 2
    ensures forall e :: e in es ==> e.ruleNumber == 28
    ensures es != [] <==> (p.trust.trustRequired
      && !(p.trust.trustContract.present && p.trust.saleAuthorityConfirmation.present && p.trust.allPartiesSigned && p.trust.allSealsValid))
  {
    var t := p.trust;
    if !t.trustRequired then []
    else
      (if !t.trustContract.present then [Hard("신탁원부계약서", "신탁 건물이나 서류 미제출", 28)] else [])
      + (if !t.saleAuthorityConfirmation.present then [Hard("신탁물건 매매 권한 확인서", "서류 미제출", 28)]
         else if !t.allPartiesSigned || !t.allSealsValid then [Hard("신탁물건 매매 권한 확인서", "일부 관계인 서명/인감 누락", 28)]
         else [])
  }

  /**
   * For a trust property, a missing trust contract and a missing sale-authority
   * confirmation are reported, and a present confirmation lacking a signature or seal.
   */
  lemma TrustDocumentsReported(p: ReviewResult)
    requires p.trust.trustRequired
    ensures Hard("신탁원부계약서", "신탁 건물이나 서류 미제출", 28) in Rule28(p) <==> !p.trust.trustContract.present
    ensures Hard("신탁물건 매매 권한 확인서", "서류 미제출", 28) in Rule28(p) <==> !p.trust.saleAuthorityConfirmation.present
    ensures Hard("신탁물건 매매 권한 확인서", "일부 관계인 서명/인감 누락", 28) in Rule28(p)
      <==> p.trust.saleAuthorityConfirmation.present && !(p.trust.allPartiesSigned && p.trust.allSealsValid)
  {
  }

  // ------------------------------------------------------------------ rule 29: drawings

  /** `(x or "").strip()` */
  function Trimmed(x: Option<string>): string
  {
    Strip(x.GetOr(""))
  }

  /** Piloti structure: the title ledger's flag, else inferred from extracted piloti materials. */
  predicate HasPiloti(p: ReviewResult)
  {
    match p.ledgerTitle.hasPiloti
    case Some(b) => b
    case None => Trimmed(p.asBuilt.pilotiFinishMaterial) != [] || Trimmed(p.asBuilt.pilotiInsulationMaterial) != []
  }

  /** No material name at all could be read from the drawing. */
  predicate NoMaterialRead(a: AsBuiltDrawing)
  {
    Trimmed(a.exteriorFinishMaterial) == [] && Trimmed(a.exteriorInsulationMaterial) == []
    && Trimmed(a.pilotiFinishMaterial) == [] && Trimmed(a.pilotiInsulationMaterial) == []
  }

  /** Every required material name was read: both exterior ones, and the piloti ones for a piloti structure. */
  predicate MaterialsComplete(a: AsBuiltDrawing, piloti: bool)
  {
    Trimmed(a.exteriorFinishMaterial) != [] && Trimmed(a.exteriorInsulationMaterial) != []
    && (piloti ==> Trimmed(a.pilotiFinishMaterial) != [] && Trimmed(a.pilotiInsulationMaterial) != [])
  }

  function ExtractedMaterials(a: AsBuiltDrawing): (r: seq<string>)
    ensures r == [] <==> NoMaterialRead(a)
    ensures |r| <= 4
  {
    (if Trimmed(a.exteriorFinishMaterial) != [] then ["외벽마감재료: " + Trimmed(a.exteriorFinishMaterial)] else [])
    + (if Trimmed(a.exteriorInsulationMaterial) != [] then ["외벽단열재료: " + Trimmed(a.exteriorInsulationMaterial)] else [])
    + (if Trimmed(a.pilotiFinishMaterial) != [] then ["필로티마감재료: " + Trimmed(a.pilotiFinishMaterial)] else [])
    + (if Trimmed(a.pilotiInsulationMaterial) != [] then ["필로티단열재료: " + Trimmed(a.pilotiInsulationMaterial)] else [])
  }

  /** Exterior materials are always required; piloti materials only for a piloti structure. */
  function MissingMaterials(a: AsBuiltDrawing, piloti: bool): (r: seq<string>)
    ensures r == [] <==> MaterialsComplete(a, piloti)
    ensures |r| <= 4
  {
    (if Trimmed(a.exteriorFinishMaterial) == [] then ["외벽마감재료"] else [])
    + (if Trimmed(a.exteriorInsulationMaterial) == [] then ["외벽단열재료"] else [])
    + (if piloti && Trimmed(a.pilotiFinishMaterial) == [] then ["필로티마감재료"] else [])
    + (if piloti && Trimmed(a.pilotiInsulationMaterial) == [] then ["필로티단열재료"] else [])
  }

  /** The exterior finish is listed exactly when blank; a piloti material only for a piloti structure. */
  lemma MissingMaterialsListed(a: AsBuiltDrawing, piloti: bool)
    ensures "외벽마감재료" in MissingMaterials(a, piloti) <==> Trimmed(a.exteriorFinishMaterial) == []
    ensures !piloti ==> "필로티단열재료" !in MissingMaterials(a, piloti)
  {
    var finish, insulation, pilotiFinish: string := "외벽마감재료", "외벽단열재료", "필로티마감재료";
    assert |finish| == 6 && |insulation| == 6 && |pilotiFinish| == 7 && |"필로티단열재료"| == 7;
    assert finish[2] != insulation[2];
  }

  function Rule29(p: ReviewResult): (es: seq<Finding>)
    ensures |es| <= 1 && forall e :: e in es ==> e.ruleNumber == 29 && e.documentName == "준공도면"
    ensures p.asBuilt.base.present && MissingMaterials(p.asBuilt, HasPiloti(p)) == [] ==> es == []
    ensures !p.asBuilt.base.present ==> es == [Hard("준공도면", "서류 미제출", 29)]
    ensures es != [] <==> (!p.asBuilt.base.present
      || (!MaterialsComplete(p.asBuilt, HasPiloti(p)) && (!NoMaterialRead(p.asBuilt) || p.asBuilt.materialsExtracted)))
  {
    var a := p.asBuilt;
    if !a.base.present then [Hard("준공도면", "서류 미제출", 29)]
    else
      var missing := MissingMaterials(a, HasPiloti(p));
      var extracted := ExtractedMaterials(a);
      if missing == [] then []
      else if extracted != [] then
        [Hard("준공도면", "추출된 자재: " + Join(extracted, ", ") + " / 미추출: " + Join(missing, ", "), 29)]
      else if a.materialsExtracted then
        [Hard("준공도면", "자재명 미추출 — 도면에서 외벽마감·외벽단열 자재명을 추출해야 함", 29)]
      else []
  }

  // ------------------------------------------------------------------ rule 30: fire-test certificates

  const HeatKeywords: seq<string> := [
    "열방출", "총열방출", "열방출률", "thr", "heat release", "hrr",
    "발열량", "5660", "콘칼로리미터", "cone calorimeter"]
  const GasKeywords: seq<string> := [
    "가스유해", "가스독성", "gas toxic", "연소가스", "유해가스",
    "연기독성", "2271", "마우스", "mouse"]
  const ThermalKeywords: seq<string> := [
    "열전도율", "열전도", "thermal conductivity", "k-value",
    "단열성능", "단열시험", "8302", "9016"]
  const StoneKeywords: seq<string> := [
    "석재", "화강석", "대리석", "현무암", "사암", "석회암",
    "granite", "marble", "stone", "타일", "테라코타",
    "세라믹", "도자기", "자기질"]

  const ThermalOnlyItem: string :=
    "⚠️ 시험성적서 무효: 열전도율 시험만 있음 (열방출+가스유해성 시험 조합 필수, 열전도율은 제외 대상)"

  /** What the certificate record and its detected test names establish. */
  datatype CertEvidence = CertEvidence(testCertFile: bool, deliveryFile: bool, heat: bool, gas: bool, thermal: bool)

  /** `" ".join(str(t).lower() for t in detected_tests)` */
  function DetectedText(tests: seq<string>): string
  {
    Join(seq(|tests|, i requires 0 <= i < |tests| => Lower(tests[i])), " ")
  }

  function Evidence(t: TestCertificateDelivery): (e: CertEvidence)
    ensures t.hasHeatReleaseTest ==> e.heat
    ensures t.hasGasToxicityTest ==> e.gas
    ensures t.base.present ==> e.testCertFile
  {
    var text := DetectedText(t.detectedTests);
    CertEvidence(
      t.testCertFileExists || t.base.present,
      t.deliveryConfFileExists || t.hasDeliveryConfirmation,
      t.hasHeatReleaseTest || HasKeyword(text, HeatKeywords),
      t.hasGasToxicityTest || HasKeyword(text, GasKeywords),
      t.hasThermalConductivityTest || HasKeyword(text, ThermalKeywords))
  }

  /** The certificate counts only with both the heat-release and the gas-toxicity test. */
  predicate ValidCert(e: CertEvidence) { e.testCertFile && e.heat && e.gas }

  predicate ThermalOnly(e: CertEvidence) { e.thermal && !e.heat && !e.gas }

  /** The three keyword scans of rule 30, as loops. */
  method GatherEvidence(t: TestCertificateDelivery) returns (e: CertEvidence)
    ensures e == Evidence(t)
  {
    var text := DetectedText(t.detectedTests);
    var heat := t.hasHeatReleaseTest;
    var gas := t.hasGasToxicityTest;
    var thermal := t.hasThermalConductivityTest;
    var hit := ScanKeywords(text, HeatKeywords);
    if hit { heat := true; }
    hit := ScanKeywords(text, GasKeywords);
    if hit { gas := true; }
    hit := ScanKeywords(text, ThermalKeywords);
    if hit { thermal := true; }
    e := CertEvidence(t.testCertFileExists || t.base.present, t.deliveryConfFileExists || t.hasDeliveryConfirmation, heat, gas, thermal);
  }

  datatype MaterialKind = ExteriorFinish | ExteriorInsulation | PilotiFinish | PilotiInsulation

  datatype Material = Material(caption: string, name: string, kind: MaterialKind, isStone: bool)

  /** The stripped, lower-cased exterior finish names a stone-like material. */
  predicate IsStoneFinish(a: AsBuiltDrawing)
  {
    HasKeyword(Lower(Trimmed(a.exteriorFinishMaterial)), StoneKeywords)
  }

  /** The material, when its stripped name is not blank. */
  function MaterialIf(caption: string, x: Option<string>, kind: MaterialKind, stone: bool): (r: seq<Material>)
    ensures |r| <= 1
    ensures forall m :: m in r ==> m.name != [] && m.kind == kind && m.isStone == stone
    ensures r == [] <==> Trimmed(x) == []
  {
    if Trimmed(x) != [] then [Material(caption, Trimmed(x), kind, stone)] else []
  }

  /** The extracted materials, in order; only the exterior finish can be stone. */
  function RequiredMaterials(a: AsBuiltDrawing): (r: seq<Material>)
    ensures |r| <= 4
    ensures forall m :: m in r ==> m.name != [] && (m.isStone ==> m.kind == ExteriorFinish)
  {
    MaterialIf("외벽마감재료", a.exteriorFinishMaterial, ExteriorFinish, IsStoneFinish(a))
    + MaterialIf("외벽단열재료", a.exteriorInsulationMaterial, ExteriorInsulation, false)
    + MaterialIf("필로티마감재료", a.pilotiFinishMaterial, PilotiFinish, false)
    + MaterialIf("필로티단열재료", a.pilotiInsulationMaterial, PilotiInsulation, false)
  }

  /** Items when no material was extracted from the drawings. */
  function NoMaterialItems(e: CertEvidence): seq<string>
  {
    (if !e.testCertFile then ["준불연시험성적서 미제출 (준공도면 자재 미확인)"]
     else if !ValidCert(e) && !ThermalOnly(e) then
       (if !e.heat && !e.gas then ["준불연시험성적서 미비 (열방출시험+가스유해성 시험 없음)"]
        else if !e.heat then ["준불연시험성적서 미비 (열방출시험 없음)"]
        else if !e.gas then ["준불연시험성적서 미비 (가스유해성 시험 없음)"]
        else [])
     else [])
    + (if !e.deliveryFile then ["납품확인서 미제출 (준공도면 자재 미확인)"] else [])
  }

  /** Items for one material: a stone exterior finish needs only the delivery confirmation. */
  function ItemsFor(e: CertEvidence, m: Material): (r: seq<string>)
    ensures m.isStone && m.kind == ExteriorFinish ==> (r == [] <==> e.deliveryFile)
    ensures !(m.isStone && m.kind == ExteriorFinish) ==>
      (r == [] <==> e.deliveryFile && e.testCertFile && (ValidCert(e) || ThermalOnly(e)))
  {
    var desc := m.caption + "(" + m.name + ")";
    if m.isStone && m.kind == ExteriorFinish then
      (if !e.deliveryFile then [desc + " 납품확인서 미제출 (석재도 납품확인서 필요)"] else [])
    else
      (if !e.testCertFile then [desc + " 준불연시험성적서 미제출"]
       else if !ValidCert(e) && !ThermalOnly(e) then
         (if !e.heat && !e.gas then [desc + " 준불연시험성적서 무효 (열방출+가스유해성 둘 다 없음)"]
          else if !e.heat then [desc + " 준불연시험성적서 무효 (열방출시험 없음, 가스유해성만)"]
          else if !e.gas then [desc + " 준불연시험성적서 무효 (가스유해성 시험 없음, 열방출만)"]
          else [])
       else [])
      + (if !e.deliveryFile then [desc + " 납품확인서 미제출"] else [])
  }

  /** The items of every material, in order. */
  function MaterialItems(e: CertEvidence, mats: seq<Material>): seq<string>
  {
    if mats == [] then [] else MaterialItems(e, mats[..|mats| - 1]) + ItemsFor(e, mats[|mats| - 1])
  }

  /** No items are missing exactly when no material misses any. */
  lemma {:induction false} MaterialItemsEmpty(e: CertEvidence, mats: seq<Material>)
    ensures MaterialItems(e, mats) == [] <==> forall i :: 0 <= i < |mats| ==> ItemsFor(e, mats[i]) == []
  {
    if mats != [] {
      var pre := mats[..|mats| - 1];
      MaterialItemsEmpty(e, pre);
      assert forall i :: 0 <= i < |pre| ==> pre[i] == mats[i];
    }
  }

  /** The per-material loop of rule 30. */
  method CollectMaterialItems(e: CertEvidence, mats: seq<Material>) returns (items: seq<string>)
    ensures items == MaterialItems(e, mats)
  {
    items := [];
    var i := 0;
    while i < |mats|
      invariant 0 <= i <= |mats|
      invariant items == MaterialItems(e, mats[..i])
    {
      assert mats[..i + 1][..i] == mats[..i];
      items := items + ItemsFor(e, mats[i]);
      i := i + 1;
    }
    assert mats[..i] == mats;
  }

  /** `missing_items` of rule 30, before de-duplication. */
  function Rule30Items(p: ReviewResult): seq<string>
  {
    var e := Evidence(p.testCert);
    var mats := RequiredMaterials(p.asBuilt);
    (if e.testCertFile && ThermalOnly(e) then [ThermalOnlyItem] else [])
    + (if mats == [] then NoMaterialItems(e) else MaterialItems(e, mats))
  }

  function Rule30(p: ReviewResult): (es: seq<Finding>)
    ensures |es| <= 1 && forall e :: e in es ==> e.ruleNumber == 30 && !e.needsManualCheck
    ensures es != [] <==> (Rule30Items(p) != [] || (!p.testCert.base.present && !Evidence(p.testCert).deliveryFile))
    ensures Rule30Items(p) == [] && es != [] ==> es == [Hard("준불연시험성적서·납품확인서", "서류 미제출", 30)]
  {
    var items := Rule30Items(p);
    if items != [] then [Hard("준불연시험성적서·납품확인서", Join(Dedup(items), "; "), 30)]
    else if !p.testCert.base.present && !Evidence(p.testCert).deliveryFile then [Hard("준불연시험성적서·납품확인서", "서류 미제출", 30)]
    else []
  }

  /**
   * When rule 30 collects items, its one finding gives each item once: the reason is
   * the "; "-join of a repeat-free list holding exactly the items, and names every item.
   */
  lemma Rule30ReasonListsItems(p: ReviewResult)
    requires Rule30Items(p) != []
    ensures var ds := Dedup(Rule30Items(p));
      Rule30(p) == [Hard("준불연시험성적서·납품확인서", Join(ds, "; "), 30)]
      && NoDuplicates(ds) && (forall x :: x in ds <==> x in Rule30Items(p))
    ensures forall k :: 0 <= k < |Rule30Items(p)| ==> Contains(Rule30(p)[0].reason, Rule30Items(p)[k])
  {
    var items := Rule30Items(p);
    var ds := Dedup(items);
    DedupSpec(items);
    forall k | 0 <= k < |items|
      ensures Contains(Rule30(p)[0].reason, items[k])
    {
      var x := items[k];
      assert x in ds;
      var m :| 0 <= m < |ds| && ds[m] == x;
      JoinContainsPart(ds, "; ", m);
    }
  }

  // ------------------------------------------------------------------ rules 31-34

  function Rule31(p: ReviewResult): (es: seq<Finding>)
    ensures es != [] <==> p.ledgerTitle.base.present && p.ledgerTitle.hasWorkerLivingFacility.None?
    ensures forall e :: e in es ==> e.ruleNumber == 31
  {
    if p.ledgerTitle.base.present && p.ledgerTitle.hasWorkerLivingFacility.None? then
      [Hard("건축물대장 표제부", "근생(근로자생활시설) 여부 확인 필요", 31)]
    else []
  }

  /** `getattr(u, "exclusive_area", None) or getattr(u, "area", None)`: a zero area reads as missing. */
  function AreaOf(u: ExclusiveUnit): Option<real>
  {
    if u.exclusiveArea != 0.0 then Some(u.exclusiveArea) else None
  }

  function UnitAreas(units: seq<ExclusiveUnit>): (r: seq<real>)
    ensures |r| <= |units|
    ensures forall x :: x in r ==> x != 0.0 && exists i :: 0 <= i < |units| && units[i].exclusiveArea == x
    ensures r == [] <==> forall i :: 0 <= i < |units| ==> units[i].exclusiveArea == 0.0
  {
    if units == [] then []
    else
      var t := UnitAreas(units[1..]);
      assert forall i :: 1 <= i < |units| ==> units[i] == units[1..][i - 1];
      (if AreaOf(units[0]).Some? then [units[0].exclusiveArea] else []) + t
  }

  function SeqMin(xs: seq<real>): (m: real)
    requires xs != []
    ensures m in xs && forall x :: x in xs ==> m <= x
  {
    if |xs| == 1 then xs[0]
    else
      var t := SeqMin(xs[1..]);
      assert forall x :: x in xs ==> x == xs[0] || x in xs[1..];
      if xs[0] <= t then xs[0] else t
  }

  function SeqMax(xs: seq<real>): (m: real)
    requires xs != []
    ensures m in xs && forall x :: x in xs ==> x <= m
  {
    if |xs| == 1 then xs[0]
    else
      var t := SeqMax(xs[1..]);
      assert forall x :: x in xs ==> x == xs[0] || x in xs[1..];
      if xs[0] >= t then xs[0] else t
  }

  /** Unit numbers whose (non-zero) area equals `a`, in ledger order. */
  function UnitsWithArea(units: seq<ExclusiveUnit>, a: real): (r: seq<string>)
    ensures |r| <= |units|
  {
    if units == [] then []
    else (if AreaOf(units[0]) == Some(a) then [units[0].unitNumber] else []) + UnitsWithArea(units[1..], a)
  }

  function Rule32(p: ReviewResult): (es: seq<Finding>)
    ensures es != [] <==> p.ledgerExclusive.base.present && UnitAreas(p.ledgerExclusive.units) == []
    ensures forall e :: e in es ==> e.ruleNumber == 32
  {
    var x := p.ledgerExclusive;
    if x.base.present && UnitAreas(x.units) == [] then
      [Hard("건축물대장 전유부", "전유부 최소·최대 면적 및 해당 호 데이터 확인 필요", 32)]
    else []
  }

  /** The min/max fields rule 32 fills in when some unit has an area. */
  function WithAreaRange(x: BuildingLedgerExclusive): (r: BuildingLedgerExclusive)
    ensures x.base.present && UnitAreas(x.units) != [] ==>
      var areas := UnitAreas(x.units);
      r.minExclusiveArea == Some(SeqMin(areas)) && r.maxExclusiveArea == Some(SeqMax(areas))
      && (forall a :: a in areas ==> r.minExclusiveArea.value <= a <= r.maxExclusiveArea.value)
    ensures !(x.base.present && UnitAreas(x.units) != []) ==> r == x
  {
    var areas := UnitAreas(x.units);
    if x.base.present && areas != [] then
      var lo := SeqMin(areas);
      var hi := SeqMax(areas);
      x.(minExclusiveArea := Some(lo), maxExclusiveArea := Some(hi),
         minAreaUnitNumbers := UnitsWithArea(x.units, lo), maxAreaUnitNumbers := UnitsWithArea(x.units, hi))
    else x
  }

  function Rule33(p: ReviewResult): (es: seq<Finding>)
    ensures es != [] <==> p.buildingRegistry.base.present && p.buildingRegistry.isPrivateRentalStated.None?
    ensures forall e :: e in es ==> e.ruleNumber == 33
  {
    if p.buildingRegistry.base.present && p.buildingRegistry.isPrivateRentalStated.None? then
      [Hard("건물 등기부등본", "민간임대용 명시 여부 확인 필요", 33)]
    else []
  }

  function Rule34(p: ReviewResult): (es: seq<Finding>)
    ensures es != [] <==> p.landLedger.base.present && !NonEmpty(p.landLedger.landCategory) && p.landLedger.useRestrictions == []
    ensures forall e :: e in es ==> e.ruleNumber == 34
  {
    var land := p.landLedger;
    if land.base.present && !NonEmpty(land.landCategory) && land.useRestrictions == [] then
      [Hard("토지대장", "지목·용도·행위제한 확인 필요", 34)]
    else []
  }

  // ------------------------------------------------------------------ the whole review

  /** Rules 1-7: the sale application itself. */
  function ApplicationEntries(ann: Date, p: ReviewResult): (es: seq<Finding>)
    requires ValidDate(ann)
    ensures forall e :: e in es ==> 1 <= e.ruleNumber <= 7
    ensures p.corporate.isCorporation ==> forall e :: e in es ==> e.ruleNumber != 3 && e.ruleNumber != 4
  {
    Rule1(p) + Rule2(ann, p) + Rule3(p) + Rule4(p) + Rule5(p) + Rule6(p) + Rule7(p)
  }

  /** Rules 8-17: rental status, power of attorney, owner and corporate documents, consent. */
  function PartyEntries(ann: Date, p: ReviewResult): (es: seq<Finding>)
    requires ValidDate(ann)
    ensures forall e :: e in es ==> 8 <= e.ruleNumber <= 17
    ensures p.corporate.isCorporation ==> forall e :: e in es ==> !(12 <= e.ruleNumber <= 14)
    ensures !p.corporate.isCorporation ==> forall e :: e in es ==> e.ruleNumber != 15 && e.ruleNumber != 17
  {
    Rule8(p) + Rule9(p) + Rule10(p) + Rule11(ann, p) + Rule12To14(p) + Rule15And17(p) + Rule16(p)
  }

  /** Rules 18-23: realtor, pledges, building ledgers, layout. */
  function BuildingEntries(p: ReviewResult): (es: seq<Finding>)
    ensures forall e :: e in es ==> 18 <= e.ruleNumber <= 23
  {
    Rule18(p) + Rule19(p) + Rule20(p) + Rule21(p) + Rule22(p) + Rule23(p)
  }

  /** Rules 24-29: land documents, registries, trust, drawings. */
  function LandEntries(ann: Date, p: ReviewResult): (es: seq<Finding>)
    requires ValidDate(ann)
    ensures forall e :: e in es ==> 24 <= e.ruleNumber <= 29
  {
    Rule24(ann, p) + Rule25(p) + Rule26(p) + Rule27(p) + Rule28(p) + Rule29(p)
  }

  /** Rules 31-34: the fields left for a manual look. */
  function LedgerEntries(p: ReviewResult): (es: seq<Finding>)
    ensures forall e :: e in es ==> 31 <= e.ruleNumber <= 34
  {
    Rule31(p) + Rule32(p) + Rule33(p) + Rule34(p)
  }

  /** The documents every review needs, whatever the applicant. */
  predicate MandatoryPresent(p: ReviewResult)
  {
    p.application.base.present && p.consent.base.present && p.pledge.base.present && p.lhConfirmation.base.present
    && p.ledgerTitle.base.present && p.layoutPlan.base.present && p.landLedger.base.present && p.landUsePlan.base.present
    && p.landRegistry.base.present && p.buildingRegistry.base.present && p.asBuilt.base.present
  }

  /** Every finding of one `validate` call, in the order it is appended. */
  function Entries(ann: Date, p: ReviewResult): seq<Finding>
    requires ValidDate(ann)
  {
    ApplicationEntries(ann, p) + PartyEntries(ann, p) + BuildingEntries(p) + LandEntries(ann, p) + Rule30(p) + LedgerEntries(p)
  }

  /** `result.supplementary_documents`: manual checks get the suffix appended. */
  function Reported(fs: seq<Finding>): (r: seq<SupplementaryDocument>)
    ensures |r| == |fs|
    ensures forall i :: 0 <= i < |fs| ==> r[i].documentName == fs[i].documentName && r[i].ruleNumber == fs[i].ruleNumber
    ensures forall i :: 0 <= i < |fs| && fs[i].needsManualCheck ==> r[i].reason == fs[i].reason + ManualSuffix
    ensures forall i :: 0 <= i < |fs| && !fs[i].needsManualCheck ==> r[i].reason == fs[i].reason
  {
    seq(|fs|, i requires 0 <= i < |fs| =>
      SupplementaryDocument(fs[i].documentName, fs[i].reason + (if fs[i].needsManualCheck then ManualSuffix else ""), fs[i].ruleNumber))
  }

  const AllClear: string := "✅ 모든 서류가 정상적으로 확인되었습니다."

  /** `review_summary`: the all-clear text exactly when nothing is missing. */
  function Summary(count: nat, manual: nat): (r: string)
    ensures r == AllClear <==> count == 0
  {
    if count == 0 then AllClear
    else
      var r := "총 " + NatToString(count) + "건의 보완서류가 필요합니다."
               + (if manual > 0 then " (" + NatToString(manual) + "건 수동확인 권장)" else "");
      assert r[0] != AllClear[0];
      r
  }

  /** The in-place updates of rules 3, 4 and 7 to the sale application. */
  function CheckedApplication(p: ReviewResult): HousingSaleApplication
  {
    var app := p.application;
    app.(owner := app.owner.(isComplete := app.owner.isComplete || OwnerCompleted(p)),
         seal := app.seal.(isValid := app.seal.isValid || SealAccepted(p)),
         approvalDateMatch := Rule7Match(p))
  }

  /** Rule 15's bookkeeping: a corporation is recorded as such, with the owner name as its display. */
  function WithApplicant(r: ReviewResult): ReviewResult
  {
    if !r.corporate.isCorporation then r
    else
      var name := r.application.owner.name;
      r.(applicantType := Corporation,
         applicantTypeDisplay :=
           if !NonEmpty(r.applicantTypeDisplay) && NonEmpty(name) then Some(Strip(name.value)) else r.applicantTypeDisplay)
  }

  /** The result `validate` returns. */
  function Validated(ann: Date, res: ReviewResult, today: string): (r: ReviewResult)
    requires ValidDate(ann)
    ensures var es := Entries(ann, Prepared(res, today));
      r.supplementaryCount == |r.supplementaryDocuments| == |es|
      && (r.isReviewComplete <==> es == [])
      && (r.reviewSummary == AllClear <==> r.isReviewComplete)
      && r.reviewDate == today
      && r.corporate.isCorporation == DetectCorporation(res)
      && (r.corporate.isCorporation ==> r.applicantType == Corporation)
  {
    var p := Prepared(res, today);
    var es := Entries(ann, p);
    var r := WithApplicant(p.(application := CheckedApplication(p))).(ledgerExclusive := WithAreaRange(p.ledgerExclusive));
    r.(supplementaryDocuments := Reported(es), supplementaryCount := |es|, isReviewComplete := es == [],
       reviewSummary := Summary(|es|, |ManualItems(es)|))
  }

  // ------------------------------------------------------------------ laws

  /**
   * Every finding is filed under one of the 34 rules; a corporation is never asked for
   * an individual owner's data, seal or identity documents (rules 3, 4, 12-14), and an
   * individual never for the corporate documents (rules 15 and 17).
   */
  /** A review with no findings has every document that all reviews need. */
  lemma CleanReviewHasMandatoryDocuments(ann: Date, p: ReviewResult)
    requires ValidDate(ann) && Entries(ann, p) == []
    ensures MandatoryPresent(p)
  {
    var application, parties, building := ApplicationEntries(ann, p), PartyEntries(ann, p), BuildingEntries(p);
    var land, certificates, ledgers := LandEntries(ann, p), Rule30(p), LedgerEntries(p);
    assert |Entries(ann, p)| == |application| + |parties| + |building| + |land| + |certificates| + |ledgers|;
    assert Rule1(p) == [] by { assert |application| >= |Rule1(p)|; }
    assert Rule16(p) == [] by { assert |parties| >= |Rule16(p)|; }
    assert Rule19(p) == [] && Rule20(p) == [] && Rule21(p) == [] && Rule23(p) == [] by {
      assert |building| == |Rule18(p)| + |Rule19(p)| + |Rule20(p)| + |Rule21(p)| + |Rule22(p)| + |Rule23(p)|;
    }
    assert Rule24(ann, p) == [] && Rule25(p) == [] && Rule26(p) == [] && Rule27(p) == [] && Rule29(p) == [] by {
      assert |land| == |Rule24(ann, p)| + |Rule25(p)| + |Rule26(p)| + |Rule27(p)| + |Rule28(p)| + |Rule29(p)|;
    }
  }

  lemma EntriesGating(ann: Date, p: ReviewResult)
    requires ValidDate(ann)
    ensures forall e :: e in Entries(ann, p) ==> 1 <= e.ruleNumber <= 34
    ensures p.corporate.isCorporation ==>
      forall e :: e in Entries(ann, p) ==> e.ruleNumber !in {3, 4, 12, 13, 14}
    ensures !p.corporate.isCorporation ==>
      forall e :: e in Entries(ann, p) ==> e.ruleNumber !in {15, 17}
  {
    var application, parties, building := ApplicationEntries(ann, p), PartyEntries(ann, p), BuildingEntries(p);
    var land, certificates, ledgers := LandEntries(ann, p), Rule30(p), LedgerEntries(p);
    var all := application + parties + building + land + certificates + ledgers;
    assert Entries(ann, p) == all;
    forall e | e in all
      ensures 1 <= e.ruleNumber <= 34
      ensures p.corporate.isCorporation ==> e.ruleNumber !in {3, 4, 12, 13, 14}
      ensures !p.corporate.isCorporation ==> e.ruleNumber !in {15, 17}
    {
      if e in application {
      } else if e in parties {
      } else if e in building {
      } else if e in land {
      } else if e in certificates {
      } else {
        assert e in ledgers;
      }
    }
  }

  /**
   * Rule 2 on a written date in any of the three accepted formats: a hard finding
   * exactly when it precedes the announcement.
   */
  lemma WrittenDateChecked(ann: Date, p: ReviewResult, d: Date, sep: char)
    requires ValidDate(ann) && ValidDate(d) && 1000 <= d.year && (sep == '-' || sep == '.' || sep == '/')
    requires p.application.base.present && p.application.writtenDate == Some(FormatWith(d, sep))
    ensures Rule2(ann, p) != [] <==> Before(d, ann)
    ensures Rule2(ann, p) != [] ==> !Rule2(ann, p)[0].needsManualCheck && Rule2(ann, p)[0].confidence == "high"
  {
    var s := FormatWith(d, sep);
    assert s[0] == Pad4(d.year)[0] && s[9] == Pad2(d.day)[1];
    StripNoEdgeSpace(s);
    CheckDateValidityFormats(ann, d, sep);
  }

  /** A written date that no accepted format reads is left alone: rule 2 reports nothing. */
  lemma UnparseableDateIgnored(ann: Date, p: ReviewResult)
    requires ValidDate(ann) && p.application.base.present && DateWritten(p.application)
    requires forall k :: 0 <= k < 3 ==> Strptime(WrittenDate(p.application).value, DocDateFormats[k]).None?
    ensures Rule2(ann, p) == []
  {
  }

  /** Rule 2 without a written or issue date: one manual check, never a hard failure. */
  lemma MissingWrittenDateIsManual(ann: Date, p: ReviewResult)
    requires ValidDate(ann) && p.application.base.present
    requires !NonEmpty(p.application.writtenDate) && !NonEmpty(p.application.base.issueDate)
    ensures |Rule2(ann, p)| == 1 && Rule2(ann, p)[0].needsManualCheck && Rule2(ann, p)[0].confidence == "manual_check"
  {
  }

  /**
   * Rule 7 on approval dates printed in ISO form: the dates agree when they fall in the
   * same month, and only then is the match recorded.
   */
  lemma ApprovalDatesCompared(p: ReviewResult, a: Date, t: Date)
    requires ValidDate(a) && ValidDate(t) && 1000 <= a.year && 1000 <= t.year
    requires p.application.approvalDateMatch.None?
    requires p.application.approvalDate == Some(Iso(a)) && p.ledgerTitle.approvalDate == Some(Iso(t))
    ensures Rule7(p) == [] <==> SameYearMonth(a, t)
    ensures Rule7Match(p) == if SameYearMonth(a, t) then Some(true) else None
  {
    IsoIsReadBack(a);
    IsoIsReadBack(t);
  }

  /**
   * Rule 3's partial-information reason already ends in the manual-check suffix, and the
   * report appends it again: the reported reason carries it twice.
   */
  lemma PartialOwnerSuffixTwice(p: ReviewResult)
    requires IndividualApplication(p) && 1 <= OwnerFieldCount(p.application.owner) <= 2
    ensures |Reported(Rule3(p))| == 1
    ensures EndsWith(Reported(Rule3(p))[0].reason, ManualSuffix + ManualSuffix)
  {
    var missing := MissingOwnerFields(p.application.owner);
    var reason := "소유자 정보 일부 미추출: " + Join(missing, ", ") + ManualSuffix;
    assert Rule3(p)[0].reason == reason;
    var full := reason + ManualSuffix;
    assert full == ("소유자 정보 일부 미추출: " + Join(missing, ", ")) + (ManualSuffix + ManualSuffix);
  }

  /** A certificate holding only a thermal-conductivity test is always reported as invalid. */
  lemma ThermalOnlyIsReported(p: ReviewResult)
    requires Evidence(p.testCert).testCertFile && ThermalOnly(Evidence(p.testCert))
    ensures |Rule30(p)| == 1 && Contains(Rule30(p)[0].reason, ThermalOnlyItem)
  {
    var items := Rule30Items(p);
    assert items[0] == ThermalOnlyItem;
    DedupSpec(items);
    var d := Dedup(items);
    assert ThermalOnlyItem in d;
    var k :| 0 <= k < |d| && d[k] == ThermalOnlyItem;
    JoinContainsPart(d, "; ", k);
  }

  /** With a valid certificate and a delivery confirmation rule 30 reports nothing. */
  lemma CompleteEvidenceClears(p: ReviewResult)
    requires ValidCert(Evidence(p.testCert)) && Evidence(p.testCert).deliveryFile
    ensures Rule30(p) == []
  {
    var e := Evidence(p.testCert);
    var mats := RequiredMaterials(p.asBuilt);
    assert forall i :: 0 <= i < |mats| ==> ItemsFor(e, mats[i]) == [];
    MaterialItemsEmpty(e, mats);
    assert Rule30Items(p) == [];
  }

  /** Without a delivery confirmation rule 30 always reports, whatever the materials. */
  lemma NoDeliveryIsReported(p: ReviewResult)
    requires !Evidence(p.testCert).deliveryFile
    ensures |Rule30(p)| == 1
  {
    var e := Evidence(p.testCert);
    var mats := RequiredMaterials(p.asBuilt);
    if mats != [] {
      assert ItemsFor(e, mats[0]) != [];
      MaterialItemsEmpty(e, mats);
    }
    assert Rule30Items(p) != [];
  }

  class EnhancedValidator {
    const announcementDate: Date
    const correctionDate: Option<Date>
    var supplementaryDocs: seq<Finding>
    var manualCheckItems: seq<ManualCheckItem>

    /** The manual-check list mirrors exactly the manual findings, in order. */
    predicate Valid()
      reads this
    {
      ValidDate(announcementDate) && manualCheckItems == ManualItems(supplementaryDocs)
    }

    /** `EnhancedValidator(announcement_date, correction_date)` once both dates have been parsed. */
    constructor(announcement: Date, correction: Option<Date>)
      requires ValidDate(announcement)
      ensures Valid()
      ensures announcementDate == announcement && correctionDate == correction
      ensures supplementaryDocs == [] && manualCheckItems == []
    {
      announcementDate := announcement;
      correctionDate := correction;
      supplementaryDocs := [];
      manualCheckItems := [];
    }

    /** `_add_supplementary` */
    method AddSupplementary(docName: string, reason: string, ruleNumber: int, confidence: string,
                            needsManualCheck: bool, details: Option<string>)
      modifies this
      requires Valid()
      ensures Valid()
      ensures supplementaryDocs == old(supplementaryDocs) + [Finding(docName, reason, ruleNumber, confidence, needsManualCheck, details)]
      ensures manualCheckItems == old(manualCheckItems)
        + (if needsManualCheck then [ManualCheckItem(docName, reason, ruleNumber, details)] else [])
    {
      var f := Finding(docName, reason, ruleNumber, confidence, needsManualCheck, details);
      ManualItemsSnoc(supplementaryDocs, f);
      supplementaryDocs := supplementaryDocs + [f];
      if needsManualCheck {
        manualCheckItems := manualCheckItems + [ManualCheckItem(docName, reason, ruleNumber, details)];
      }
    }

    /** Appends the findings of one rule, one `_add_supplementary` call each. */
    method AddAll(fs: seq<Finding>)
      modifies this
      requires Valid()
      ensures Valid()
      ensures supplementaryDocs == old(supplementaryDocs) + fs
    {
      var i := 0;
      while i < |fs|
        invariant 0 <= i <= |fs|
        invariant Valid()
        invariant supplementaryDocs == old(supplementaryDocs) + fs[..i]
      {
        var f := fs[i];
        AddSupplementary(f.documentName, f.reason, f.ruleNumber, f.confidence, f.needsManualCheck, f.details);
        assert fs[..i + 1] == fs[..i] + [f];
        i := i + 1;
      }
      assert fs[..i] == fs;
    }

    /** Rule 30: evidence from the keyword scans, the material loop, one de-duplicated entry. */
    method CheckTestCertificates(p: ReviewResult)
      modifies this
      requires Valid()
      ensures Valid()
      ensures supplementaryDocs == old(supplementaryDocs) + Rule30(p)
    {
      var tcd := p.testCert;
      var e := GatherEvidence(tcd);
      var mats := RequiredMaterials(p.asBuilt);
      var invalidity: seq<string> := if e.testCertFile && ThermalOnly(e) then [ThermalOnlyItem] else [];
      var perMaterial: seq<string>;
      if mats == [] {
        perMaterial := NoMaterialItems(e);
      } else {
        perMaterial := CollectMaterialItems(e, mats);
      }
      var items := invalidity + perMaterial;
      assert items == Rule30Items(p);
      if items != [] {
        AddSupplementary("준불연시험성적서·납품확인서", Join(Dedup(items), "; "), 30, "high", false, None);
      } else if !tcd.base.present && !e.deliveryFile {
        AddSupplementary("준불연시험성적서·납품확인서", "서류 미제출", 30, "high", false, None);
      }
    }

    /**
     * `validate(result)`: both lists are reset, so the findings are those of this call
     * alone; the returned result carries them, their count, the completeness verdict and
     * the summary.
     */
    method Validate(res: ReviewResult, today: string) returns (r: ReviewResult)
      modifies this
      requires Valid()
      ensures Valid()
      ensures supplementaryDocs == Entries(announcementDate, Prepared(res, today))
      ensures r == Validated(announcementDate, res, today)
    {
      supplementaryDocs := [];
      manualCheckItems := [];
      r := res.(reviewDate := today);
      var isCorp := DetectCorporationFlag(res);
      r := r.(corporate := r.corporate.(isCorporation := isCorp));
      var p := r;
      assert p == Prepared(res, today);
      var application := ApplicationEntries(announcementDate, p);
      AddAll(application);
      assert supplementaryDocs == application;
      var parties := PartyEntries(announcementDate, p);
      AddAll(parties);
      assert supplementaryDocs == application + parties;
      var building := BuildingEntries(p);
      AddAll(building);
      var land := LandEntries(announcementDate, p);
      AddAll(land);
      assert supplementaryDocs == application + parties + building + land;
      CheckTestCertificates(p);
      var certificates := Rule30(p);
      var ledgers := LedgerEntries(p);
      AddAll(ledgers);
      assert supplementaryDocs == application + parties + building + land + certificates + ledgers;
      r := WithApplicant(p.(application := CheckedApplication(p))).(ledgerExclusive := WithAreaRange(p.ledgerExclusive));
      var es := supplementaryDocs;
      r := r.(supplementaryDocuments := Reported(es), supplementaryCount := |es|, isReviewComplete := es == [],
              reviewSummary := Summary(|es|, |manualCheckItems|));
    }
  }
}
