/**
 * The two-stage review: stage 1 (purchase exclusion against the announcement) decides first,
 * and only a housing that is not excluded has its documents checked by the enhanced rule
 * engine (stage 2). Also the conversion of an analysed review result into the housing data
 * stage 1 reads.
 */
module IntegratedVerification {
  import opened Wrappers
  import opened Text
  import opened Dates
  import opened DataModels
  import opened ExclusionRules
  import opened ExclusionEngine
  import EV = EnhancedValidation

  // The summary and recommendation texts of each outcome.
  const ExcludedSummary: string := "❌ 매입제외 대상입니다."
  const ExclusionAdvice: string := "매입제외 요건에 해당하여 매입이 불가합니다. 서류 검토를 진행하지 않습니다."
  const ConditionalSummary: string := "⚠️ 조건부 검토 대상입니다."
  const ExceptionAdvice: string := "매입제외 예외 조건 충족 여부를 먼저 확인하세요."
  const AwaitingSummary: string := "✅ 1단계 통과, 2단계 서류 검증 대기"
  const AwaitingAdvice: string := "서류 분석 후 2단계 검증을 진행하세요."
  const ApprovedSummary: string := "✅ 심사 진행 가능합니다."
  const ApprovedAdvice: string := "모든 검증을 통과했습니다. 심사를 진행하세요."
  const SupplementaryAdvice: string := "보완서류 제출 후 재검토가 필요합니다."
  const SupplementaryPrefix: string := "⚠️ 보완서류 "
  const SupplementarySuffix: string := "건 필요"

  /** The summary when `count` supplementary documents are needed. */
  function SupplementarySummary(count: int): string
  {
    SupplementaryPrefix + IntToString(count) + SupplementarySuffix
  }

  datatype FinalVerdict = FinalExcluded | FinalConditional | Supplementary | Approved

  datatype IntegratedResult = IntegratedResult(
    finalVerdict: FinalVerdict,
    stage1Result: VerificationResult,
    stage1Passed: bool,
    stage2Result: Option<ReviewResult>,
    stage2Passed: bool,
    summary: string,
    recommendation: string,
    reviewDate: string)

  /**
   * `IntegratedVerificationSystem.verify` once stage 1 has produced `stage1`: the verdict table.
   * `validate` is the document validator's `validate` and `today` the review date of the call.
   */
  function Integrated(stage1: VerificationResult, document: Option<ReviewResult>, skipStage2: bool,
                      validate: ReviewResult -> ReviewResult, today: string): (r: IntegratedResult)
    ensures r.stage1Result == stage1 && r.reviewDate == today
    ensures r.stage1Passed <==> stage1.verdict == Passed
    ensures stage1.verdict == Excluded ==> r.finalVerdict == FinalExcluded && r.stage2Result.None? && !r.stage2Passed
    ensures stage1.verdict == ConditionalReview ==>
      r.finalVerdict == FinalConditional
      && (r.stage2Result.Some? <==> document.Some? && !skipStage2)
    ensures stage1.verdict == Passed ==>
      (r.finalVerdict == Approved || r.finalVerdict == Supplementary)
      && (r.stage2Result.Some? <==> document.Some?)
      && (r.finalVerdict == Approved <==> r.stage2Result.None? || r.stage2Passed)
    ensures r.stage2Result.Some? ==>
      document.Some? && r.stage2Result.value == validate(document.value)
      && (r.stage2Passed <==> r.stage2Result.value.isReviewComplete)
    ensures r.stage2Result.None? ==> !r.stage2Passed
  {
    match stage1.verdict
    case Excluded =>
      IntegratedResult(FinalExcluded, stage1, false, None, false,
        ExcludedSummary,
        ExclusionAdvice, today)
    case ConditionalReview =>
      var stage2 := if document.Some? && !skipStage2 then Some(validate(document.value)) else None;
      IntegratedResult(FinalConditional, stage1, false, stage2, stage2.Some? && stage2.value.isReviewComplete,
        ConditionalSummary,
        ExceptionAdvice, today)
    case Passed =>
      if document.None? then
        IntegratedResult(Approved, stage1, true, None, false,
          AwaitingSummary,
          AwaitingAdvice, today)
      else
        var stage2 := validate(document.value);
        if stage2.isReviewComplete then
          IntegratedResult(Approved, stage1, true, Some(stage2), true,
            ApprovedSummary,
            ApprovedAdvice, today)
        else
          IntegratedResult(Supplementary, stage1, true, Some(stage2), false,
            SupplementarySummary(stage2.supplementaryCount),
            SupplementaryAdvice, today)
  }

  /** Stage 2: the enhanced validator built on the announcement date `ann`, by review date and document. */
  function StageTwo(ann: Date): string -> ReviewResult -> ReviewResult
    requires ValidDate(ann)
  {
    today => doc => EV.Validated(ann, doc, today)
  }

  /** `stage2` reviews every document on every date exactly as the enhanced validator built on `ann` does. */
  ghost predicate IsStageTwo(stage2: string -> ReviewResult -> ReviewResult, ann: Date)
  {
    ValidDate(ann)
    && forall today, doc {:trigger EV.Validated(ann, doc, today)} :: stage2(today)(doc) == EV.Validated(ann, doc, today)
  }

  /** `StageTwo(ann)` is the validator's review on `ann`. */
  lemma StageTwoReviews(ann: Date)
    requires ValidDate(ann)
    ensures IsStageTwo(StageTwo(ann), ann)
  {
  }

  /** The two-stage review of one housing against a rule list. */
  function Review(rules: seq<ExclusionRule>, d: HousingData, document: Option<ReviewResult>, skipStage2: bool,
                  validate: ReviewResult -> ReviewResult, today: string): IntegratedResult
  {
    Integrated(Verification(rules, d), document, skipStage2, validate, today)
  }

  /** The stage-1 engine and the stage-2 validator, both built on one announcement. */
  class IntegratedVerificationSystem {
    const config: AnnouncementConfig
    const exclusionEngine: ExclusionVerificationEngine
    const documentValidator: EV.EnhancedValidator
    /** What running the validator computes, by review date and document. */
    ghost const stageTwo: string -> ReviewResult -> ReviewResult

    /**
     * Both stages look at the same announcement, the validator's lists are consistent, and
     * `stageTwo` is the validator's review.
     */
    ghost predicate Valid()
      reads this, exclusionEngine, documentValidator
    {
      exclusionEngine.config == config && documentValidator.Valid()
      && IsStageTwo(stageTwo, documentValidator.announcementDate)
    }

    /**
     * Without a configuration, the default one for 경기남부, stamped with `now`. The validator
     * parses the announcement date, which must therefore be a valid `%Y-%m-%d` date.
     */
    constructor(announcementConfig: Option<AnnouncementConfig>, now: string)
      requires announcementConfig.Some? ==> EV.ParseAnnouncement(announcementConfig.value.announcementDate).Some?
      ensures announcementConfig.Some? ==> config == announcementConfig.value
      ensures announcementConfig.None? ==> config == CreateDefaultConfig("경기남부", now)
      ensures Valid()
      ensures Some(documentValidator.announcementDate) == EV.ParseAnnouncement(config.announcementDate)
      ensures documentValidator.correctionDate.None? && documentValidator.supplementaryDocs == []
      ensures fresh(exclusionEngine) && fresh(documentValidator)
    {
      var c := if announcementConfig.Some? then announcementConfig.value else CreateDefaultConfig("경기남부", now);
      if announcementConfig.None? {
        DefaultAnnouncementParses();
      }
      var ann := EV.ParseAnnouncement(c.announcementDate).value;
      config := c;
      exclusionEngine := new ExclusionVerificationEngine(Some(c), now);
      documentValidator := new EV.EnhancedValidator(ann, None);
      stageTwo := StageTwo(ann);
      StageTwoReviews(ann);
    }

    /**
     * `verify`: stage 1 on the housing data, then the verdict table; stage 2, when it runs,
     * resets and refills the validator's finding lists.
     */
    method Verify(d: HousingData, document: Option<ReviewResult>, skipStage2: bool, today: string)
      returns (r: IntegratedResult)
      modifies documentValidator
      requires Valid()
      ensures Valid()
      ensures r == Integrated(Verification(config.exclusionRules, d), document, skipStage2, stageTwo(today), today)
      ensures r.stage2Result.None? ==> unchanged(documentValidator)
      ensures r.stage2Result.Some? ==>
        EV.Reported(documentValidator.supplementaryDocs) == r.stage2Result.value.supplementaryDocuments
    {
      var stage1 := exclusionEngine.Verify(d);
      r := Decide(stage1, document, skipStage2, today);
    }

    /** The verdict table once stage 1 is known, running the validator where stage 2 is due. */
    method Decide(stage1: VerificationResult, document: Option<ReviewResult>, skipStage2: bool, today: string)
      returns (r: IntegratedResult)
      modifies documentValidator
      requires Valid()
      ensures Valid()
      ensures r == Integrated(stage1, document, skipStage2, stageTwo(today), today)
      ensures r.stage2Result.None? ==> unchanged(documentValidator)
      ensures r.stage2Result.Some? ==>
        EV.Reported(documentValidator.supplementaryDocs) == r.stage2Result.value.supplementaryDocuments
    {
      match stage1.verdict
      case Excluded =>
        r := IntegratedResult(FinalExcluded, stage1, false, None, false, ExcludedSummary, ExclusionAdvice, today);
      case ConditionalReview =>
        var stage2: Option<ReviewResult> := None;
        if document.Some? && !skipStage2 {
          var validated := RunStageTwo(document.value, today);
          stage2 := Some(validated);
        }
        r := IntegratedResult(FinalConditional, stage1, false, stage2, stage2.Some? && stage2.value.isReviewComplete,
          ConditionalSummary, ExceptionAdvice, today);
      case Passed =>
        if document.None? {
          r := IntegratedResult(Approved, stage1, true, None, false, AwaitingSummary, AwaitingAdvice, today);
        } else {
          var stage2 := RunStageTwo(document.value, today);
          if stage2.isReviewComplete {
            r := IntegratedResult(Approved, stage1, true, Some(stage2), true, ApprovedSummary, ApprovedAdvice, today);
          } else {
            r := IntegratedResult(Supplementary, stage1, true, Some(stage2), false,
              SupplementarySummary(stage2.supplementaryCount), SupplementaryAdvice, today);
          }
        }
    }

    /** One run of the validator: its lists are reset and refilled with the document's findings. */
    method RunStageTwo(doc: ReviewResult, today: string) returns (v: ReviewResult)
      modifies documentValidator
      requires Valid()
      ensures Valid()
      ensures v == stageTwo(today)(doc)
      ensures EV.Reported(documentValidator.supplementaryDocs) == v.supplementaryDocuments
    {
      v := documentValidator.Validate(doc, today);
    }
  }

  /** The default announcement date 2025-07-04 is a valid `%Y-%m-%d` date. */
  lemma DefaultAnnouncementParses()
    ensures EV.ParseAnnouncement("2025-07-04") == Some(Date(2025, 7, 4))
  {
    var d := Date(2025, 7, 4);
    IsoRoundTrip(d);
    assert Iso(d) == "2025-07-04";
  }

  // ---------------------------------------------------------------- laws of the two stages

  /** The final verdict is EXCLUDED exactly when some active ABSOLUTE rule is violated; stage 2 is then skipped. */
  lemma ExcludedIff(rules: seq<ExclusionRule>, d: HousingData, document: Option<ReviewResult>, skipStage2: bool,
                    validate: ReviewResult -> ReviewResult, today: string)
    ensures Review(rules, d, document, skipStage2, validate, today).finalVerdict == FinalExcluded
      <==> exists i :: 0 <= i < |rules| && rules[i].isActive && rules[i].severity == Absolute && Violated(rules[i], d)
    ensures Review(rules, d, document, skipStage2, validate, today).finalVerdict == FinalExcluded
      ==> Review(rules, d, document, skipStage2, validate, today).stage2Result.None?
  {
    VerdictIff(rules, d);
  }

  /**
   * The final verdict is APPROVED or SUPPLEMENTARY exactly when no active ABSOLUTE or CONDITIONAL rule
   * is violated.
   */
  lemma StageTwoReachedIff(rules: seq<ExclusionRule>, d: HousingData, document: Option<ReviewResult>, skipStage2: bool,
                           validate: ReviewResult -> ReviewResult, today: string)
    ensures var r := Review(rules, d, document, skipStage2, validate, today);
      (r.finalVerdict == Approved || r.finalVerdict == Supplementary)
      <==> forall i :: 0 <= i < |rules| && rules[i].isActive && rules[i].severity != Warning ==> !Violated(rules[i], d)
  {
    VerdictIff(rules, d);
  }

  /**
   * With documents and a passed stage 1, the review is APPROVED exactly when the enhanced rule engine
   * finds nothing to supplement; otherwise SUPPLEMENTARY, reporting how many findings it made.
   */
  lemma ApprovedIffNoFindings(stage1: VerificationResult, doc: ReviewResult, skipStage2: bool,
                               stage2: string -> ReviewResult -> ReviewResult, ann: Date, today: string)
    requires IsStageTwo(stage2, ann) && stage1.verdict == Passed
    ensures var r := Integrated(stage1, Some(doc), skipStage2, stage2(today), today);
      (r.finalVerdict == Approved <==> EV.Entries(ann, EV.Prepared(doc, today)) == [])
      && (r.finalVerdict == Supplementary ==>
            r.stage2Result.value.supplementaryCount == |EV.Entries(ann, EV.Prepared(doc, today))| > 0)
  {
    var v := EV.Validated(ann, doc, today);
    assert stage2(today)(doc) == v;
  }

  /** Without documents, a passed stage 1 is APPROVED with no stage-2 result. */
  lemma ApprovedWithoutDocuments(stage1: VerificationResult, skipStage2: bool, validate: ReviewResult -> ReviewResult,
                                 today: string)
    requires stage1.verdict == Passed
    ensures var r := Integrated(stage1, None, skipStage2, validate, today);
      r.finalVerdict == Approved && r.stage2Result.None? && !r.stage2Passed && r.stage1Passed
  {
  }

  /** The skip flag matters only to a CONDITIONAL stage 1. */
  lemma SkipOnlyAffectsConditional(stage1: VerificationResult, document: Option<ReviewResult>,
                                   validate: ReviewResult -> ReviewResult, today: string)
    requires stage1.verdict != ConditionalReview
    ensures Integrated(stage1, document, true, validate, today) == Integrated(stage1, document, false, validate, today)
  {
  }

  // ---------------------------------------------------------------- conversion

  /** `[u.exclusive_area for u in units if u.exclusive_area][0]`, when there is one. */
  function FirstArea(units: seq<ExclusiveUnit>): (r: Option<real>)
    ensures r.None? <==> forall i :: 0 <= i < |units| ==> units[i].exclusiveArea == 0.0
    ensures r.Some? ==> exists i :: 0 <= i < |units| && units[i].exclusiveArea == r.value && r.value != 0.0
                                    && forall j :: 0 <= j < i ==> units[j].exclusiveArea == 0.0
  {
    if units == [] then None
    else if units[0].exclusiveArea != 0.0 then Some(units[0].exclusiveArea)
    else
      var rest := FirstArea(units[1..]);
      assert forall i :: 1 <= i < |units| ==> units[i] == units[1..][i - 1];
      if rest.Some? then
        var k :| 0 <= k < |units[1..]| && units[1..][k].exclusiveArea == rest.value && rest.value != 0.0
                 && forall j :: 0 <= j < k ==> units[1..][j].exclusiveArea == 0.0;
        assert units[k + 1].exclusiveArea == rest.value;
        rest
      else rest
  }

  /** The fields of the housing data the conversion sets; every other one keeps its default. */
  function ConvertedFields(d: HousingData): HousingData
  {
    d.(hasSeismicDesign := None, hasElevator := None, hasSeizure := false, housingType := "일반",
       exclusiveArea := None, totalUnits := None)
  }

  /** `convert_ai_result_to_exclusion_data` */
  function ConvertAiResult(ai: ReviewResult, housingType: string): (r: HousingData)
    ensures r.hasSeismicDesign == ai.ledgerTitle.seismicDesign && r.hasElevator == ai.ledgerTitle.hasElevator
    ensures r.hasSeizure == ai.buildingRegistry.hasSeizure && r.housingType == housingType
    ensures !r.hasBasementUnits && !r.hasAuction
    ensures !r.isRedevelopmentZone && !r.isMaintenanceZone && !r.isPublicHousingZone
      && !r.isHousingDevelopmentZone && !r.isSmallHousingRedevelopmentZone
    ensures r.totalUnits == (if ai.ledgerExclusive.units == [] then None else Some(|ai.ledgerExclusive.units|))
    ensures r.exclusiveArea.Some? ==>
      (r.exclusiveArea.value != 0.0
       && exists i :: 0 <= i < |ai.ledgerExclusive.units| && ai.ledgerExclusive.units[i].exclusiveArea == r.exclusiveArea.value)
    ensures r.exclusiveArea.None? <==>
      forall i :: 0 <= i < |ai.ledgerExclusive.units| ==> ai.ledgerExclusive.units[i].exclusiveArea == 0.0
    ensures ConvertedFields(r) == ConvertedFields(DefaultHousingData)
  {
    var units := ai.ledgerExclusive.units;
    DefaultHousingData.(
      hasSeismicDesign := ai.ledgerTitle.seismicDesign,
      hasElevator := ai.ledgerTitle.hasElevator,
      hasBasementUnits := false,
      hasSeizure := ai.buildingRegistry.hasSeizure,
      hasAuction := false,
      housingType := housingType,
      exclusiveArea := if units == [] then None else FirstArea(units),
      totalUnits := if units == [] then None else Some(|units|))
  }

  /** The fields the conversion pins to False. */
  predicate PinnedFalse(path: string)
  {
    path == "land_use_plan.is_redevelopment_zone" || path == "land_use_plan.is_maintenance_zone"
    || path == "land_use_plan.is_public_housing_zone" || path == "land_use_plan.is_housing_development_zone"
    || path == "land_use_plan.is_small_housing_redevelopment_zone" || path == "building.has_basement_units"
  }

  /**
   * A converted result never violates an `== True` rule on a zone designation or on basement units,
   * so LOC_001-LOC_005 and HSG_001 never exclude a housing judged from its documents.
   */
  lemma ConvertedPinnedNeverViolate(rule: ExclusionRule, ai: ReviewResult, housingType: string)
    requires PinnedFalse(rule.checkField) && rule.checkCondition == "== True"
    ensures !Violated(rule, ConvertAiResult(ai, housingType))
  {
    var d := ConvertAiResult(ai, housingType);
    assert GetFieldValue(rule.checkField, d) == Flag(false);
    EqTrueCondition(Flag(false), d);
  }
}
