/**
 * `PublicHousingValidator`: the older, stricter rule set (rules 1-28), kept for
 * backward compatibility.
 *
 * Where a rule reads exactly as in the enhanced validator (rules 1, 5, 7, 8, 9, 16, 18,
 * 21, 22, 28) its findings are the enhanced rule's, without grading. The rules that
 * differ are defined here: dates count only in "%Y-%m-%d", missing values are failures
 * rather than manual checks, and the individual-owner rules ignore corporation status.
 */
module LegacyValidation {
  import opened Wrappers
  import opened Text
  import opened Dates
  import opened DataModels
  import EV = EnhancedValidation

  /** A finding of the enhanced rules as a plain supplementary document. */
  function Plain(fs: seq<EV.Finding>): (r: seq<SupplementaryDocument>)
    ensures |r| == |fs|
    ensures forall i :: 0 <= i < |fs| ==>
      r[i] == SupplementaryDocument(fs[i].documentName, fs[i].reason, fs[i].ruleNumber)
  {
    seq(|fs|, i requires 0 <= i < |fs| => SupplementaryDocument(fs[i].documentName, fs[i].reason, fs[i].ruleNumber))
  }

  function Doc(doc: string, reason: string, rule: int): SupplementaryDocument
  {
    SupplementaryDocument(doc, reason, rule)
  }

  /** `"; ".join(issues)` as one document, or nothing when there are no issues. */
  function IssuesDoc(doc: string, issues: seq<string>, rule: int): (r: seq<SupplementaryDocument>)
    ensures r == [] <==> issues == []
    ensures r != [] ==> r == [Doc(doc, Join(issues, "; "), rule)]
  {
    if issues == [] then [] else [Doc(doc, Join(issues, "; "), rule)]
  }

  /** `_check_date_validity`: only "%Y-%m-%d" is read; a blank or other form is invalid. */
  function CheckDateValidity(ann: Date, s: Option<string>): (ok: bool)
    ensures ok ==> NonEmpty(s) && Strptime(s.value, FmtDash).Some?
  {
    NonEmpty(s) && var d := Strptime(s.value, FmtDash); d.Some? && !Before(d.value, ann)
  }

  // ------------------------------------------------------------------ rules 1-7

  function Rule2(ann: Date, p: ReviewResult): (r: seq<SupplementaryDocument>)
    requires ValidDate(ann)
    ensures |r| <= 1
    ensures r != [] <==> p.application.base.present && !CheckDateValidity(ann, p.application.base.issueDate)
  {
    if p.application.base.present && !CheckDateValidity(ann, p.application.base.issueDate) then
      [Doc("주택매도 신청서", "작성일자가 공고일(" + Iso(ann) + ") 이전", 2)]
    else []
  }

  function MissingOwnerLabels(o: OwnerInfo): (r: seq<string>)
    ensures |r| <= 5
    ensures r == [] <==> NonEmpty(o.name) && NonEmpty(o.birthDate) && NonEmpty(o.address) && NonEmpty(o.phone) && NonEmpty(o.email)
  {
    (if !NonEmpty(o.name) then ["성명"] else []) + (if !NonEmpty(o.birthDate) then ["생년월일"] else [])
    + (if !NonEmpty(o.address) then ["현거주지 주소"] else []) + (if !NonEmpty(o.phone) then ["휴대전화번호"] else [])
    + (if !NonEmpty(o.email) then ["이메일주소"] else [])
  }

  /** Rule 3 trusts the `is_complete` flag; it does not count fields itself. */
  function Rule3(p: ReviewResult): (r: seq<SupplementaryDocument>)
    ensures r != [] <==> p.application.base.present && !p.application.owner.isComplete
    ensures |r| <= 1
  {
    var o := p.application.owner;
    if p.application.base.present && !o.isComplete then
      [Doc("주택매도 신청서", "소유자 정보 미기재: " + Join(MissingOwnerLabels(o), ", "), 3)]
    else []
  }

  /** A match rate was read and is below 45. */
  predicate RateTooLow(seal: SealVerification)
  {
    seal.matchRate.Some? && seal.matchRate.value < 45.0
  }

  function Rule4(p: ReviewResult): (r: seq<SupplementaryDocument>)
    ensures |r| <= 1
    ensures !p.application.base.present || p.application.seal.isValid ==> r == []
    ensures r != [] <==> (p.application.base.present && !p.application.seal.isValid
      && (RateTooLow(p.application.seal) || !p.application.seal.certificateExists))
    ensures r != [] ==>
      r[0].documentName == (if RateTooLow(p.application.seal) then "주택매도 신청서" else "본인발급용 인감증명서")
  {
    var seal := p.application.seal;
    if p.application.base.present && !seal.isValid then
      if RateTooLow(seal) then
        [Doc("주택매도 신청서", "인감 일치율 부족 (" + FloatText(seal.matchRate.value) + "% < 45%)", 4)]
      else if !seal.certificateExists then [Doc("본인발급용 인감증명서", "서류 미제출", 4)]
      else []
    else []
  }

  /** Rule 6 trusts the match flag alone, however many areas were read. */
  function Rule6(p: ReviewResult): (r: seq<SupplementaryDocument>)
    ensures r != [] <==> !p.application.landAreaMatch
    ensures |r| <= 1
  {
    if !p.application.landAreaMatch then
      [Doc("대지면적 불일치", "주택매도신청서, 토지대장, 토지이용계획확인서 간 대지면적 불일치", 6)]
    else []
  }

  // ------------------------------------------------------------------ rules 10-17

  function Rule10(p: ReviewResult): (r: seq<SupplementaryDocument>)
    ensures r != [] <==> p.powerOfAttorney.base.present && !p.powerOfAttorney.landAreaMatch
  {
    if p.powerOfAttorney.base.present && !p.powerOfAttorney.landAreaMatch then [Doc("위임장", "소재지 또는 대지면적 오류", 10)] else []
  }

  /** As in the enhanced rule, except that a missing written date still counts as "before". */
  function PoaIssues(ann: Date, poa: PowerOfAttorney): (r: seq<string>)
    requires ValidDate(ann)
    ensures !poa.isAfterAnnouncement ==> "작성일이 공고일(" + Iso(ann) + ") 이전" in r
    ensures r == [] <==> (poa.delegator.personalInfoComplete && poa.delegator.sealValid
      && poa.delegatee.personalInfoComplete && poa.delegatee.sealValid && poa.isAfterAnnouncement)
  {
    (if !poa.delegator.personalInfoComplete then ["위임자 인적사항 불완전"] else [])
    + (if !poa.delegator.sealValid then ["위임자 인감 미날인/불일치"] else [])
    + (if !poa.delegatee.personalInfoComplete then ["수임자 인적사항 불완전"] else [])
    + (if !poa.delegatee.sealValid then ["수임자 인감 미날인/불일치"] else [])
    + (if !poa.isAfterAnnouncement then ["작성일이 공고일(" + Iso(ann) + ") 이전"] else [])
  }

  function Rule11(ann: Date, p: ReviewResult): (r: seq<SupplementaryDocument>)
    requires ValidDate(ann)
    ensures p.powerOfAttorney.base.present && !p.powerOfAttorney.isAfterAnnouncement ==> |r| == 1
    ensures !p.powerOfAttorney.base.present ==> r == []
    ensures r != [] <==> p.powerOfAttorney.base.present && PoaIssues(ann, p.powerOfAttorney) != []
    ensures r != [] ==> r == [Doc("위임장", Join(PoaIssues(ann, p.powerOfAttorney), "; "), 11)]
  {
    if p.powerOfAttorney.base.present then IssuesDoc("위임장", PoaIssues(ann, p.powerOfAttorney), 11) else []
  }

  /** Rules 12-14 apply to every owner, corporate or not. */
  function Rule12To14(p: ReviewResult): (r: seq<SupplementaryDocument>)
    ensures (r != [] && r[0].ruleNumber == 12) <==> !p.ownerIdentity.sealCertificate.present
    ensures r != [] <==> !p.ownerIdentity.sealCertificate.present || !p.ownerIdentity.allIdsSubmitted
    ensures !p.ownerIdentity.allIdsSubmitted <==> (r != [] && r[|r| - 1].documentName == "소유자 신분증 사본")
    ensures !p.ownerIdentity.allIdsSubmitted ==>
      r[|r| - 1].ruleNumber == (if p.ownerIdentity.ownerCount > 1 then 14 else 13)
  {
    var ids := p.ownerIdentity;
    (if !ids.sealCertificate.present then [Doc("소유자 인감증명서", "서류 미제출", 12)] else [])
    + (if !ids.allIdsSubmitted then
         [Doc("소유자 신분증 사본", "소유자 " + IntToString(ids.ownerCount) + "명 중 일부 미제출", if ids.ownerCount > 1 then 14 else 13)]
       else [])
  }

  function Rule15(p: ReviewResult): (r: seq<SupplementaryDocument>)
    ensures !p.corporate.isCorporation ==> r == []
    ensures forall d :: d in r ==> d.ruleNumber == 15
    ensures r != [] <==> (p.corporate.isCorporation
      && !(p.corporate.businessRegistration.present && p.corporate.corporateSealCertificate.present
           && p.corporate.corporateRegistry.present && p.corporate.allExecutiveIdsSubmitted))
  {
    var corp := p.corporate;
    if !corp.isCorporation then []
    else
      (if !corp.businessRegistration.present then [Doc("법인용 사업자등록증", "서류 미제출", 15)] else [])
      + (if !corp.corporateSealCertificate.present then [Doc("법인용 인감증명서", "서류 미제출", 15)] else [])
      + (if !corp.corporateRegistry.present then [Doc("법인 등기사항전부증명서", "서류 미제출", 15)] else [])
      + (if !corp.allExecutiveIdsSubmitted then
           [Doc("법인 임원 신분증", "등기 임원 " + IntToString(corp.executiveCount) + "명 중 일부 미제출", 15)]
         else [])
  }

  /** Each missing corporate document has its own rule-15 finding. */
  lemma CorporateDocumentsReported(p: ReviewResult)
    requires p.corporate.isCorporation
    ensures Doc("법인용 사업자등록증", "서류 미제출", 15) in Rule15(p) <==> !p.corporate.businessRegistration.present
    ensures Doc("법인용 인감증명서", "서류 미제출", 15) in Rule15(p) <==> !p.corporate.corporateSealCertificate.present
    ensures Doc("법인 등기사항전부증명서", "서류 미제출", 15) in Rule15(p) <==> !p.corporate.corporateRegistry.present
  {
    var corp := p.corporate;
    var biz, seal, reg := Doc("법인용 사업자등록증", "서류 미제출", 15), Doc("법인용 인감증명서", "서류 미제출", 15),
      Doc("법인 등기사항전부증명서", "서류 미제출", 15);
    assert |biz.documentName| == 10 && |seal.documentName| == 9 && |reg.documentName| == 12;
    var ids := if !corp.allExecutiveIdsSubmitted then
         [Doc("법인 임원 신분증", "등기 임원 " + IntToString(corp.executiveCount) + "명 중 일부 미제출", 15)]
       else [];
    assert forall e :: e in ids ==> |e.documentName| == 9 && e.documentName[3] == '임';
    assert seal.documentName[3] == ' ';
    assert Rule15(p) == (if !corp.businessRegistration.present then [biz] else [])
      + (if !corp.corporateSealCertificate.present then [seal] else [])
      + (if !corp.corporateRegistry.present then [reg] else []) + ids;
  }

  function Rule17(p: ReviewResult): (r: seq<SupplementaryDocument>)
    ensures !p.corporate.isCorporation ==> r == []
    ensures |r| <= 1 && forall d :: d in r ==> d.ruleNumber == 17
    ensures r != [] <==> p.corporate.isCorporation && !(p.corporate.contractLimitConsent.present && p.corporate.allExecutivesSigned)
    ensures r != [] ==> r[0].reason == (if p.corporate.contractLimitConsent.present then "일부 임원 자필서명 누락" else "서류 미제출")
  {
    var corp := p.corporate;
    var doc := "연간 계약건수 상한 여부 검증용 개인정보 수집 이용동의서";
    if !corp.isCorporation then []
    else if !corp.contractLimitConsent.present then [Doc(doc, "서류 미제출", 17)]
    else if !corp.allExecutivesSigned then [Doc(doc, "일부 임원 자필서명 누락", 17)]
    else []
  }

  // ------------------------------------------------------------------ rules 19-27

  function PledgeIssues(pl: IntegrityPledge, agentPresent: bool, realtorAgent: bool): (r: seq<string>)
    ensures r == [] <==> EV.PledgeClean(pl, agentPresent, realtorAgent)
  {
    (if !pl.ownerSubmitted then ["소유자 미작성"] else [])
    + (if !pl.ownerSealValid then ["소유자 인감 불일치"] else [])
    + (if !pl.ownerIdNumberValid then ["소유자 주민번호/사업자번호 오류"] else [])
    + (if !pl.corporationIdTypeCorrect then ["법인인데 주민등록번호 기재 (사업자등록번호 필요)"] else [])
    + (if agentPresent && !pl.agentSubmitted then ["대리인 미작성"] else [])
    + (if realtorAgent && !pl.realtorSubmitted then ["중개사 미작성"] else [])
  }

  function Rule19(p: ReviewResult): (r: seq<SupplementaryDocument>)
    ensures |r| <= 1
    ensures !p.pledge.base.present ==> r == [Doc("청렴서약서", "서류 미제출", 19)]
    ensures r != [] <==> !p.pledge.base.present || !EV.PledgeClean(p.pledge, p.application.agent.present, p.realtor.isRealtorAgent)
  {
    if !p.pledge.base.present then [Doc("청렴서약서", "서류 미제출", 19)]
    else IssuesDoc("청렴서약서", PledgeIssues(p.pledge, p.application.agent.present, p.realtor.isRealtorAgent), 19)
  }

  /** The false flags among name match, seal and date, in that order. */
  function LhIssues(lh: LHEmployeeConfirmation): (r: seq<string>)
    ensures "소유자 이름 불일치" in r <==> !lh.ownerNameMatch
    ensures "인감 불일치" in r <==> !lh.sealValid
    ensures "작성일자 오류" in r <==> !lh.dateValid
    ensures r == [] <==> lh.ownerNameMatch && lh.sealValid && lh.dateValid
  {
    (if !lh.ownerNameMatch then ["소유자 이름 불일치"] else [])
    + (if !lh.sealValid then ["인감 불일치"] else [])
    + (if !lh.dateValid then ["작성일자 오류"] else [])
  }

  function Rule20(p: ReviewResult): (r: seq<SupplementaryDocument>)
    ensures |r| <= 1
    ensures !p.lhConfirmation.base.present ==> r == [Doc("공사직원여부 확인서", "서류 미제출", 20)]
    ensures p.lhConfirmation.base.present ==>
      (r != [] <==> !(p.lhConfirmation.ownerNameMatch && p.lhConfirmation.sealValid && p.lhConfirmation.dateValid))
  {
    var lh := p.lhConfirmation;
    if !lh.base.present then [Doc("공사직원여부 확인서", "서류 미제출", 20)]
    else IssuesDoc("공사직원여부 확인서", LhIssues(lh), 20)
  }

  function LayoutIssues(l: BuildingLayoutPlan): (r: seq<string>)
    ensures r == [] <==> l.hasSitePlan && l.hasAllFloorPlans && l.hasUnitPlans && l.isGovernmentIssued
  {
    (if !l.hasSitePlan then ["배치도 누락"] else [])
    + (if !l.hasAllFloorPlans then ["층별 평면도 누락: " + Join(l.missingFloors, ", ")] else [])
    + (if !l.hasUnitPlans then ["호별 평면도 누락: " + Join(l.missingUnits, ", ")] else [])
    + (if !l.isGovernmentIssued then ["지자체 발급분이 아님 (건축사무소 도면)"] else [])
  }

  /** A present layout plan lacking any part gives one combined document. */
  function Rule23(p: ReviewResult): (r: seq<SupplementaryDocument>)
    ensures |r| <= 1
    ensures r != [] <==> !p.layoutPlan.base.present || LayoutIssues(p.layoutPlan) != []
  {
    var l := p.layoutPlan;
    if !l.base.present then [Doc("건축물현황도", "서류 미제출", 23)]
    else IssuesDoc("건축물현황도", LayoutIssues(l), 23)
  }

  function LandIssues(ann: Date, land: LandLedger): (r: seq<string>)
    requires ValidDate(ann)
    ensures r == [] <==> land.isAfterAnnouncement && land.landAreaMatch && land.allParcelsSubmitted
  {
    (if !land.isAfterAnnouncement then ["발급일이 공고일(" + Iso(ann) + ") 이전"] else [])
    + (if !land.landAreaMatch then ["대지면적 불일치"] else [])
    + (if !land.allParcelsSubmitted then ["필지 누락: " + Join(land.missingParcels, ", ")] else [])
  }

  function Rule24(ann: Date, p: ReviewResult): (r: seq<SupplementaryDocument>)
    requires ValidDate(ann)
    ensures |r| <= 1
    ensures forall d :: d in r ==> d.documentName == "토지대장" && d.ruleNumber == 24
    ensures r != [] <==> (!p.landLedger.base.present
      || !(p.landLedger.isAfterAnnouncement && p.landLedger.landAreaMatch && p.landLedger.allParcelsSubmitted))
  {
    if !p.landLedger.base.present then [Doc("토지대장", "서류 미제출", 24)]
    else IssuesDoc("토지대장", LandIssues(ann, p.landLedger), 24)
  }

  function Rule25(p: ReviewResult): (r: seq<SupplementaryDocument>)
    ensures |r| <= 2
    ensures p.landUsePlan.base.present && p.landUsePlan.allParcelsSubmitted && EV.ExclusionZones(p.landUsePlan) == [] ==> r == []
    ensures r != [] <==> !p.landUsePlan.base.present || !p.landUsePlan.allParcelsSubmitted || EV.ExclusionZones(p.landUsePlan) != []
    ensures !p.landUsePlan.base.present ==> r == [Doc("토지이용계획확인원", "서류 미제출", 25)]
  {
    var u := p.landUsePlan;
    if !u.base.present then [Doc("토지이용계획확인원", "서류 미제출", 25)]
    else
      (if !u.allParcelsSubmitted then [Doc("토지이용계획확인원", "필지 누락: " + Join(u.missingParcels, ", "), 25)] else [])
      + (var zones := EV.ExclusionZones(u);
         if zones != [] then [Doc("토지이용계획확인원", "제외 대상 구역 해당: " + Join(zones, ", "), 25)] else [])
  }

  /** On a present plan, unsubmitted parcels and exclusion zones each give their own finding. */
  lemma LandUsePlanReported(p: ReviewResult)
    requires p.landUsePlan.base.present
    ensures var u := p.landUsePlan;
      Doc("토지이용계획확인원", "필지 누락: " + Join(u.missingParcels, ", "), 25) in Rule25(p) <==> !u.allParcelsSubmitted
    ensures var zones := EV.ExclusionZones(p.landUsePlan);
      Doc("토지이용계획확인원", "제외 대상 구역 해당: " + Join(zones, ", "), 25) in Rule25(p) <==> zones != []
  {
    var u := p.landUsePlan;
    var m, z := "필지 누락: " + Join(u.missingParcels, ", "), "제외 대상 구역 해당: " + Join(EV.ExclusionZones(u), ", ");
    assert m[0] != z[0];
  }

  function Rule26(p: ReviewResult): (r: seq<SupplementaryDocument>)
    ensures r != [] <==> !p.landRegistry.base.present || !p.landRegistry.allParcelsSubmitted
  {
    var reg := p.landRegistry;
    if !reg.base.present then [Doc("토지 등기부등본", "서류 미제출", 26)]
    else if !reg.allParcelsSubmitted then [Doc("토지 등기부등본", "필지 누락: " + Join(reg.missingParcels, ", "), 26)]
    else []
  }

  function Rule27(p: ReviewResult): (r: seq<SupplementaryDocument>)
    ensures r != [] <==> !p.buildingRegistry.base.present || !p.buildingRegistry.allUnitsSubmitted
  {
    var reg := p.buildingRegistry;
    if !reg.base.present then [Doc("건물 등기부등본", "서류 미제출", 27)]
    else if !reg.allUnitsSubmitted then [Doc("건물 등기부등본", "호수 누락: " + Join(reg.missingUnits, ", "), 27)]
    else []
  }

  // ------------------------------------------------------------------ the whole review

  function ApplicationEntries(ann: Date, p: ReviewResult): seq<SupplementaryDocument>
    requires ValidDate(ann)
  {
    Plain(EV.Rule1(p)) + Rule2(ann, p) + Rule3(p) + Rule4(p) + Plain(EV.Rule5(p)) + Rule6(p) + Plain(EV.Rule7(p))
  }

  function PartyEntries(ann: Date, p: ReviewResult): seq<SupplementaryDocument>
    requires ValidDate(ann)
  {
    Plain(EV.Rule8(p)) + Plain(EV.Rule9(p)) + Rule10(p) + Rule11(ann, p) + Rule12To14(p) + Rule15(p)
    + Plain(EV.Rule16(p)) + Rule17(p)
  }

  function BuildingEntries(p: ReviewResult): seq<SupplementaryDocument>
  {
    Plain(EV.Rule18(p)) + Rule19(p) + Rule20(p) + Plain(EV.Rule21(p)) + Plain(EV.Rule22(p)) + Rule23(p)
  }

  function LandEntries(ann: Date, p: ReviewResult): seq<SupplementaryDocument>
    requires ValidDate(ann)
  {
    Rule24(ann, p) + Rule25(p) + Rule26(p) + Rule27(p) + Plain(EV.Rule28(p))
  }

  /** Every document of one `validate` call, in the order it is appended. */
  function Entries(ann: Date, p: ReviewResult): seq<SupplementaryDocument>
    requires ValidDate(ann)
  {
    ApplicationEntries(ann, p) + PartyEntries(ann, p) + BuildingEntries(p) + LandEntries(ann, p)
  }

  const AllClear: string := "모든 서류가 정상적으로 확인되었습니다. 심사 진행 가능합니다."

  function Summary(count: nat): (r: string)
    ensures r == AllClear <==> count == 0
  {
    if count == 0 then AllClear
    else
      var r := "총 " + NatToString(count) + "건의 보완서류가 필요합니다. 상세 내역을 확인하고 보완 요청하세요.";
      assert r[0] != AllClear[0];
      r
  }

  /** The result `validate` returns: the documents, their count, the verdict, the summary. */
  function Validated(ann: Date, res: ReviewResult): (r: ReviewResult)
    requires ValidDate(ann)
    ensures var es := Entries(ann, res);
      r.supplementaryCount == |r.supplementaryDocuments| == |es|
      && (r.isReviewComplete <==> es == [])
      && (r.reviewSummary == AllClear <==> r.isReviewComplete)
      && r.reviewDate == res.reviewDate
  {
    var es := Entries(ann, res);
    var app := res.application.(approvalDateMatch := EV.Rule7Match(res));
    res.(application := app, supplementaryDocuments := es, supplementaryCount := |es|,
         isReviewComplete := es == [], reviewSummary := Summary(|es|))
  }

  // ------------------------------------------------------------------ laws

  /** A date printed "%Y-%m-%d" is judged against the announcement. */
  lemma DashDateChecked(ann: Date, d: Date)
    requires ValidDate(d) && 1000 <= d.year
    ensures CheckDateValidity(ann, Some(Iso(d))) <==> !Before(d, ann)
  {
    IsoRoundTrip(d);
  }

  /** A date printed with any other separator never counts as valid. */
  lemma OtherSeparatorRejected(ann: Date, d: Date, sep: char)
    requires ValidDate(d) && sep != '-'
    ensures !CheckDateValidity(ann, Some(FormatWith(d, sep)))
  {
    var s := FormatWith(d, sep);
    var a := Date(1900, 1, 1);
    assert s[..4] == Pad4(d.year);
    var rest := s[4..];
    assert rest[0] == sep;
    assert Match(rest, FmtDash[1..], a.(year := NatOf(s[..4]))).None?;
  }

  /** Without an issue date rule 2 always reports a present application. */
  lemma MissingIssueDateFails(ann: Date, p: ReviewResult)
    requires ValidDate(ann) && p.application.base.present && !NonEmpty(p.application.base.issueDate)
    ensures |Rule2(ann, p)| == 1
  {
  }

  /** Rules 12-14 read nothing of the corporation record. */
  lemma OwnerRulesIgnoreCorporation(p: ReviewResult, c: CorporateDocuments)
    ensures Rule12To14(p.(corporate := c)) == Rule12To14(p)
  {
  }

  /** Whenever the enhanced rule 6 reports, the legacy rule 6 does too. */
  lemma LandAreaStricter(p: ReviewResult)
    ensures EV.Rule6(p) != [] ==> Rule6(p) != []
  {
  }

  /**
   * A corporation without an individual seal certificate: the legacy rules still ask for
   * it, the enhanced rules do not.
   */
  lemma CorporateSealCertificateContrast(p: ReviewResult)
    requires p.corporate.isCorporation && !p.ownerIdentity.sealCertificate.present
    ensures Rule12To14(p) != [] && EV.Rule12To14(p) == []
  {
  }

  /** Rule 7 is the enhanced validator's rule 7. */
  lemma Rule7Shared(p: ReviewResult, a: Date, t: Date)
    requires ValidDate(a) && ValidDate(t) && 1000 <= a.year && 1000 <= t.year
    requires p.application.approvalDateMatch.None?
    requires p.application.approvalDate == Some(Iso(a)) && p.ledgerTitle.approvalDate == Some(Iso(t))
    ensures Plain(EV.Rule7(p)) == [] <==> EV.SameYearMonth(a, t)
  {
    EV.ApprovalDatesCompared(p, a, t);
  }

  class LegacyValidator {
    const announcementDate: Date
    const correctionDate: Option<Date>
    var supplementaryDocs: seq<SupplementaryDocument>

    constructor(announcement: Date, correction: Option<Date>)
      requires ValidDate(announcement)
      ensures announcementDate == announcement && correctionDate == correction
      ensures supplementaryDocs == []
    {
      announcementDate := announcement;
      correctionDate := correction;
      supplementaryDocs := [];
    }

    /** `_add_supplementary` */
    method AddSupplementary(docName: string, reason: string, ruleNumber: int)
      modifies this
      ensures supplementaryDocs == old(supplementaryDocs) + [Doc(docName, reason, ruleNumber)]
    {
      supplementaryDocs := supplementaryDocs + [Doc(docName, reason, ruleNumber)];
    }

    method AddAll(ds: seq<SupplementaryDocument>)
      modifies this
      ensures supplementaryDocs == old(supplementaryDocs) + ds
    {
      var i := 0;
      while i < |ds|
        invariant 0 <= i <= |ds|
        invariant supplementaryDocs == old(supplementaryDocs) + ds[..i]
      {
        AddSupplementary(ds[i].documentName, ds[i].reason, ds[i].ruleNumber);
        assert ds[..i + 1] == ds[..i] + [ds[i]];
        i := i + 1;
      }
      assert ds[..i] == ds;
    }

    /** `validate(result)`: the list is reset, the rules append, the result is summarised. */
    method Validate(res: ReviewResult) returns (r: ReviewResult)
      modifies this
      requires ValidDate(announcementDate)
      ensures supplementaryDocs == Entries(announcementDate, res)
      ensures r == Validated(announcementDate, res)
    {
      supplementaryDocs := [];
      var application := ApplicationEntries(announcementDate, res);
      AddAll(application);
      assert supplementaryDocs == application;
      var parties := PartyEntries(announcementDate, res);
      AddAll(parties);
      var building := BuildingEntries(res);
      AddAll(building);
      var land := LandEntries(announcementDate, res);
      AddAll(land);
      assert supplementaryDocs == application + parties + building + land;
      var es := supplementaryDocs;
      var app := res.application.(approvalDateMatch := EV.Rule7Match(res));
      r := res.(application := app, supplementaryDocuments := es, supplementaryCount := |es|,
                isReviewComplete := es == [], reviewSummary := Summary(|es|));
    }
  }
}
