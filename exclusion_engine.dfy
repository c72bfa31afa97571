/**
 * Stage 1 of the review: the purchase-exclusion engine. Each active rule of the announcement
 * reads one field of the housing data, evaluates its textual condition on it, and the
 * violated ABSOLUTE and CONDITIONAL rules decide the verdict.
 */
module ExclusionEngine {
  import opened Wrappers
  import opened Text
  import opened Numbers
  import opened ExclusionRules

  datatype ExclusionVerdict = Excluded | ConditionalReview | Passed

  /** The housing facts the rules look at, as extracted from the documents. */
  datatype HousingData = HousingData(
    isRedevelopmentZone: bool,
    isMaintenanceZone: bool,
    isPublicHousingZone: bool,
    isHousingDevelopmentZone: bool,
    isSmallHousingRedevelopmentZone: bool,
    hasCityGas: Option<bool>,
    hasWaterSewage: Option<bool>,
    nearMilitaryOrCrematorium500m: bool,
    nearHarmfulFacility50m: bool,
    nearGasStation25m: bool,
    nearEntertainment25m: bool,
    isLandlocked: bool,
    hasAccessRoad: bool,
    hasBasementUnits: bool,
    meetsMinimumHousingStandard: bool,
    isIllegalConstruction: bool,
    hasSeizure: bool,
    hasAuction: bool,
    exteriorMaterialCompliant: bool,
    permitDate: Option<string>,
    hasSeismicDesign: Option<bool>,
    hasIndividualMeters: bool,
    hasAdequateLivingSpace: bool,
    hasElevator: Option<bool>,
    bathroomPipesEmbedded: bool,
    isOfficetel: bool,
    isUnsoldApartment: bool,
    isUrbanLifestyleHousing: bool,
    isJeonseFraudHousing: bool,
    hasUnresolvedRights: bool,
    isLhEmployeeOrFamily: bool,
    hasFraudSanction: bool,
    exclusionCount: int,
    housingType: string,
    exclusiveArea: Option<real>,
    totalUnits: Option<int>)

  /** `HousingExclusionData()` with every field at its default. */
  const DefaultHousingData: HousingData := HousingData(
    false, false, false, false, false,
    None, None,
    false, false, false, false,
    false, true,
    false, true, false,
    false, false,
    true, None, None, true, true, None, false,
    false, false, false, false,
    false, false, false, 0,
    "일반",
    None, None)

  /** A field value as the engine sees it: None, a bool or an int. */
  datatype FieldValue = Absent | Flag(b: bool) | Count(n: int)

  function OptFlag(o: Option<bool>): FieldValue
  {
    if o.Some? then Flag(o.value) else Absent
  }

  /** The paths the engine's field mapping resolves. */
  const KnownFields: set<string> := {
    "land_use_plan.is_redevelopment_zone", "land_use_plan.is_maintenance_zone",
    "land_use_plan.is_public_housing_zone", "land_use_plan.is_housing_development_zone",
    "land_use_plan.is_small_housing_redevelopment_zone",
    "utilities.has_city_gas", "utilities.has_water_sewage",
    "location.near_military_or_crematorium_500m", "location.near_harmful_facility_50m",
    "location.near_gas_station_25m", "location.near_entertainment_25m",
    "land.is_landlocked", "land.has_access_road",
    "building.has_basement_units", "building.meets_minimum_housing_standard",
    "building.is_illegal_construction",
    "registry.has_seizure", "registry.has_auction",
    "building.exterior_material_compliant", "building.has_seismic_design",
    "building.has_individual_meters", "building.has_adequate_living_space",
    "building.has_elevator", "building.bathroom_pipes_embedded",
    "building.is_unsold_apartment", "building.is_jeonse_fraud_housing",
    "ownership.has_unresolved_rights",
    "applicant.is_lh_employee_or_family", "applicant.has_fraud_sanction",
    "history.exclusion_count"}

  /** The known fields whose value may be None. */
  const OptionalFields: set<string> := {
    "utilities.has_city_gas", "utilities.has_water_sewage",
    "building.has_seismic_design", "building.has_elevator"}

  /**
   * `_get_field_value`: the engine's field mapping, one path per field, and None for a
   * path the mapping does not know.
   */
  function GetFieldValue(path: string, d: HousingData): (r: FieldValue)
    ensures path !in KnownFields ==> r == Absent
    ensures r.Absent? && path in KnownFields ==> path in OptionalFields
    ensures r.Count? ==> path == "history.exclusion_count" && r.n == d.exclusionCount
  {
    if path == "land_use_plan.is_redevelopment_zone" then Flag(d.isRedevelopmentZone)
    else if path == "land_use_plan.is_maintenance_zone" then Flag(d.isMaintenanceZone)
    else if path == "land_use_plan.is_public_housing_zone" then Flag(d.isPublicHousingZone)
    else if path == "land_use_plan.is_housing_development_zone" then Flag(d.isHousingDevelopmentZone)
    else if path == "land_use_plan.is_small_housing_redevelopment_zone" then Flag(d.isSmallHousingRedevelopmentZone)
    else if path == "utilities.has_city_gas" then OptFlag(d.hasCityGas)
    else if path == "utilities.has_water_sewage" then OptFlag(d.hasWaterSewage)
    else if path == "location.near_military_or_crematorium_500m" then Flag(d.nearMilitaryOrCrematorium500m)
    else if path == "location.near_harmful_facility_50m" then Flag(d.nearHarmfulFacility50m)
    else if path == "location.near_gas_station_25m" then Flag(d.nearGasStation25m)
    else if path == "location.near_entertainment_25m" then Flag(d.nearEntertainment25m)
    else if path == "land.is_landlocked" then Flag(d.isLandlocked)
    else if path == "land.has_access_road" then Flag(d.hasAccessRoad)
    else if path == "building.has_basement_units" then Flag(d.hasBasementUnits)
    else if path == "building.meets_minimum_housing_standard" then Flag(d.meetsMinimumHousingStandard)
    else if path == "building.is_illegal_construction" then Flag(d.isIllegalConstruction)
    else if path == "registry.has_seizure" then Flag(d.hasSeizure)
    else if path == "registry.has_auction" then Flag(d.hasAuction)
    else if path == "building.exterior_material_compliant" then Flag(d.exteriorMaterialCompliant)
    else if path == "building.has_seismic_design" then OptFlag(d.hasSeismicDesign)
    else if path == "building.has_individual_meters" then Flag(d.hasIndividualMeters)
    else if path == "building.has_adequate_living_space" then Flag(d.hasAdequateLivingSpace)
    else if path == "building.has_elevator" then OptFlag(d.hasElevator)
    else if path == "building.bathroom_pipes_embedded" then Flag(d.bathroomPipesEmbedded)
    else if path == "building.is_unsold_apartment" then Flag(d.isUnsoldApartment)
    else if path == "building.is_jeonse_fraud_housing" then Flag(d.isJeonseFraudHousing)
    else if path == "ownership.has_unresolved_rights" then Flag(d.hasUnresolvedRights)
    else if path == "applicant.is_lh_employee_or_family" then Flag(d.isLhEmployeeOrFamily)
    else if path == "applicant.has_fraud_sanction" then Flag(d.hasFraudSanction)
    else if path == "history.exclusion_count" then Count(d.exclusionCount)
    else Absent
  }

  lemma LocationFieldsLow()
    ensures |LocationRules| == 13
    ensures forall i :: 0 <= i < 7 ==> LocationRules[i].checkField in KnownFields
  {
    forall i | 0 <= i < 7
      ensures LocationRules[i].checkField in KnownFields
    {
      if i == 0 {
      } else if i == 1 {
      } else if i == 2 {
      } else if i == 3 {
      } else if i == 4 {
      } else if i == 5 {
      } else {
      }
    }
  }

  lemma LocationFieldsHigh()
    ensures |LocationRules| == 13
    ensures forall i :: 7 <= i < 13 ==> LocationRules[i].checkField in KnownFields
  {
    forall i | 7 <= i < 13
      ensures LocationRules[i].checkField in KnownFields
    {
      if i == 7 {
      } else if i == 8 {
      } else if i == 9 {
      } else if i == 10 {
      } else if i == 11 {
      } else {
      }
    }
  }

  lemma HousingFieldsLow()
    ensures |HousingRules| == 12
    ensures forall i :: 0 <= i < 6 ==> HousingRules[i].checkField in KnownFields
  {
    forall i | 0 <= i < 6
      ensures HousingRules[i].checkField in KnownFields
    {
      if i == 0 {
      } else if i == 1 {
      } else if i == 2 {
      } else if i == 3 {
      } else if i == 4 {
      } else {
      }
    }
  }

  lemma HousingFieldsHigh()
    ensures |HousingRules| == 12
    ensures forall i :: 6 <= i < 12 ==> HousingRules[i].checkField in KnownFields
  {
    forall i | 6 <= i < 12
      ensures HousingRules[i].checkField in KnownFields
    {
      if i == 6 {
      } else if i == 7 {
      } else if i == 8 {
      } else if i == 9 {
      } else if i == 10 {
      } else {
      }
    }
  }

  lemma OtherFields()
    ensures |OtherRules| == 6
    ensures forall i :: 0 <= i < 6 ==> OtherRules[i].checkField in KnownFields
  {
    forall i | 0 <= i < 6
      ensures OtherRules[i].checkField in KnownFields
    {
      if i == 0 {
      } else if i == 1 {
      } else if i == 2 {
      } else if i == 3 {
      } else if i == 4 {
      } else {
      }
    }
  }

  /** Every default rule reads a path the field mapping knows, so none is silently inert. */
  lemma DefaultFieldsKnown()
    ensures forall i :: 0 <= i < |DefaultRules()| ==> DefaultRules()[i].checkField in KnownFields
  {
    LocationFieldsLow();
    LocationFieldsHigh();
    HousingFieldsLow();
    HousingFieldsHigh();
    OtherFields();
    var rs := DefaultRules();
    forall i | 0 <= i < |rs|
      ensures rs[i].checkField in KnownFields
    {
      if i < 13 {
        assert rs[i] == LocationRules[i];
      } else if i < 25 {
        assert rs[i] == HousingRules[i - 13];
      } else {
        assert rs[i] == OtherRules[i - 25];
      }
    }
  }

  // ---------------------------------------------------------------- conditions

  /** `str(v)` */
  function PyStr(v: FieldValue): string
  {
    match v
    case Absent => "None"
    case Flag(b) => if b then "True" else "False"
    case Count(n) => IntToString(n)
  }

  /** `float(v)` of a value that is not None. */
  function FloatOf(v: FieldValue): real
    requires !v.Absent?
  {
    match v
    case Flag(b) => if b then 1.0 else 0.0
    case Count(n) => n as real
  }

  /** `v == True`: a bool True, or the int 1. */
  predicate EqTrue(v: FieldValue) { v == Flag(true) || v == Count(1) }

  /** `v == False`: a bool False, or the int 0. */
  predicate EqFalse(v: FieldValue) { v == Flag(false) || v == Count(0) }

  const Quotes: set<char> := {'\'', '"'}

  /** `s.strip().strip("'\"")` */
  function Unquote(s: string): string
  {
    StripChars(Strip(s), Quotes)
  }

  /** What evaluating one clause of an "and" condition does to the result list. */
  datatype Outcome = Raised | Skip | Append(b: bool)

  /** A `permit_date` that is present and not empty. */
  predicate HasPermitDate(d: HousingData)
  {
    d.permitDate.Some? && d.permitDate.value != ""
  }

  /** One clause of a compound condition. */
  function Clause(part: string, v: FieldValue, d: HousingData): (o: Outcome)
    ensures o == Raised ==> Contains(Strip(part), "housing_type") && !Contains(Strip(part), "==")
  {
    var p := Strip(part);
    if Contains(p, "housing_type") then
      var pieces := Split(p, "==");
      if |pieces| < 2 then Raised else Append(d.housingType == Unquote(pieces[1]))
    else if Contains(p, "permit_date") then
      if Contains(p, ">=") then
        Append(HasPermitDate(d) && !StrLess(d.permitDate.value, Unquote(Split(p, ">=")[1])))
      else if Contains(p, "<") then
        Append(HasPermitDate(d) && StrLess(d.permitDate.value, Unquote(Split(p, "<")[1])))
      else Skip
    else if Contains(p, "== True") then Append(EqTrue(v))
    else if Contains(p, "== False") then Append(EqFalse(v))
    else Skip
  }

  /** The outcome of each clause of a compound condition, in order. */
  function ClauseOutcomes(parts: seq<string>, v: FieldValue, d: HousingData): (os: seq<Outcome>)
    ensures |os| == |parts|
    ensures forall i :: 0 <= i < |parts| ==> os[i] == Clause(parts[i], v, d)
  {
    seq(|parts|, i requires 0 <= i < |parts| => Clause(parts[i], v, d))
  }

  /** The result list built from the outcomes, or None when a clause raises. */
  function Collect(os: seq<Outcome>): (r: Option<seq<bool>>)
    ensures r.None? <==> exists i :: 0 <= i < |os| && os[i].Raised?
    ensures r.Some? ==> |r.value| <= |os|
  {
    if os == [] then Some([])
    else
      var rest := Collect(os[1..]);
      assert forall i :: 1 <= i < |os| ==> os[i] == os[1..][i - 1];
      match os[0]
      case Raised => None
      case Skip => rest
      case Append(b) => if rest.None? then None else Some([b] + rest.value)
  }

  /** `all(results) if results else False` */
  predicate AllOf(bs: seq<bool>)
  {
    bs != [] && forall i :: 0 <= i < |bs| ==> bs[i]
  }

  datatype Comparison = AtLeast | Above | Below

  /** `float(v) <op> float(text.strip())`; a text that is not a number raises, i.e. false. */
  predicate Compare(v: FieldValue, text: string, op: Comparison)
    requires !v.Absent?
  {
    var x := ParseFloat(Strip(text));
    x.Some? &&
    match op
    case AtLeast => FloatOf(v) >= x.value
    case Above => FloatOf(v) > x.value
    case Below => FloatOf(v) < x.value
  }

  /** An "and" condition: no clause raised, at least one clause appended, and all appended results hold. */
  predicate AllHold(parts: seq<string>, v: FieldValue, d: HousingData)
  {
    var results := Collect(ClauseOutcomes(parts, v, d));
    results.Some? && AllOf(results.value)
  }

  /** A condition without " and ", on a value that is not None. */
  predicate SimpleCondition(v: FieldValue, cond: string)
    requires !v.Absent?
  {
    if Contains(cond, "==") then
      var expected := Strip(After(cond, "=="));
      if expected == "True" then v == Flag(true)
      else if expected == "False" then v == Flag(false)
      else Strip(PyStr(v)) == Unquote(expected)
    else if Contains(cond, ">=") then Compare(v, After(cond, ">="), AtLeast)
    else if Contains(cond, ">") && !Contains(cond, "<") then Compare(v, After(cond, ">"), Above)
    else if Contains(cond, "<") then Compare(v, After(cond, "<"), Below)
    else EqTrue(v)
  }

  /** `_evaluate_condition`: whether the value violates the rule's condition. */
  function EvaluateCondition(v: FieldValue, cond: string, d: HousingData): (r: bool)
    ensures v.Absent? ==> !r
  {
    if v.Absent? then false
    else if Contains(cond, " and ") then AllHold(Split(cond, " and "), v, d)
    else SimpleCondition(v, cond)
  }

  /** Whether the housing data violates the rule (its activity aside). */
  predicate Violated(rule: ExclusionRule, d: HousingData)
  {
    EvaluateCondition(GetFieldValue(rule.checkField, d), rule.checkCondition, d)
  }

  /** `if rule.exception_condition:` */
  predicate HasException(rule: ExclusionRule)
  {
    rule.exceptionCondition.Some? && rule.exceptionCondition.value != ""
  }

  /** `_check_rule` */
  function CheckRule(rule: ExclusionRule, d: HousingData): (r: CheckResult)
    ensures r.ruleId == rule.ruleId && r.ruleDescription == rule.description && r.severity == rule.severity
    ensures r.isExcluded <==> Violated(rule, d)
    ensures !r.exceptionApplied
    ensures r.requiresManualCheck <==> r.isExcluded && (HasException(rule) || rule.severity == Conditional)
    ensures r.evidence.Some? && IsPrefix(rule.checkField + " = ", r.evidence.value)
  {
    var value := GetFieldValue(rule.checkField, d);
    var evidence := Some(rule.checkField + " = " + PyStr(value));
    if EvaluateCondition(value, rule.checkCondition, d) then
      CheckResult(rule.ruleId, rule.description, true, rule.severity, "제외 요건 해당: " + rule.subCategory,
        false, HasException(rule) || rule.severity == Conditional, evidence)
    else
      CheckResult(rule.ruleId, rule.description, false, rule.severity, "해당 없음", false, false, evidence)
  }

  /** A path the mapping does not know reads as None, so its rule is never violated. */
  lemma UnknownFieldNeverViolates(rule: ExclusionRule, d: HousingData)
    requires rule.checkField !in KnownFields
    ensures !CheckRule(rule, d).isExcluded
  {
  }

  // ---------------------------------------------------------------- verify

  /** The outcome of stage 1 for one housing. */
  datatype VerificationResult = VerificationResult(
    verdict: ExclusionVerdict,
    totalRulesChecked: nat,
    excludedCount: nat,
    conditionalCount: nat,
    passedCount: int,
    checkResults: seq<CheckResult>,
    excludedRules: seq<CheckResult>,
    conditionalRules: seq<CheckResult>,
    summary: string,
    recommendation: string)

  /** `_check_rule` against the given housing data, as a function of the rule. */
  function RuleChecker(d: HousingData): ExclusionRule -> CheckResult
  {
    rule => CheckRule(rule, d)
  }

  /** The check results of the active rules, in rule order; inactive rules leave no result. */
  function CheckedResults(rules: seq<ExclusionRule>, check: ExclusionRule -> CheckResult): (rs: seq<CheckResult>)
    ensures |rs| <= |rules|
  {
    if rules == [] then []
    else
      var last := rules[|rules| - 1];
      CheckedResults(rules[..|rules| - 1], check) + (if last.isActive then [check(last)] else [])
  }

  /** A violated rule of the given severity. */
  predicate IsHit(r: CheckResult, s: Severity)
  {
    r.isExcluded && r.severity == s
  }

  /** The violated results of one severity, in order. */
  function Hits(rs: seq<CheckResult>, s: Severity): (hs: seq<CheckResult>)
    ensures |hs| <= |rs|
    ensures forall h :: h in hs <==> h in rs && IsHit(h, s)
  {
    if rs == [] then []
    else
      var init := rs[..|rs| - 1];
      var last := rs[|rs| - 1];
      assert rs == init + [last];
      Hits(init, s) + (if IsHit(last, s) then [last] else [])
  }

  /** The results that count as passed: not violated, or violated with severity WARNING. */
  function Passes(rs: seq<CheckResult>): (ps: seq<CheckResult>)
    ensures forall p :: p in ps <==> p in rs && !IsHit(p, Absolute) && !IsHit(p, Conditional)
  {
    if rs == [] then []
    else
      var init := rs[..|rs| - 1];
      var last := rs[|rs| - 1];
      assert rs == init + [last];
      Passes(init) + (if IsHit(last, Absolute) || IsHit(last, Conditional) then [] else [last])
  }

  // The summary and recommendation texts of each verdict.
  const ExcludedPrefix: string := "❌ 매입제외: "
  const ExcludedSuffix: string := "개 절대 제외 요건 해당"
  const ExcludedAdvice: string := "매입 불가합니다. 제외 요건을 확인하세요."
  const ConditionalPrefix: string := "⚠️ 조건부: "
  const ConditionalSuffix: string := "개 조건부 요건 해당"
  const ConditionalAdvice: string := "조건 충족 시 매입 가능합니다. 예외 조건을 확인하세요."
  const PassedSummary: string := "✅ 1단계 통과: 매입제외 요건 해당 없음"
  const PassedAdvice: string := "2단계 서류 검증을 진행하세요."

  /** The final judgement of `verify` from the collected results: any ABSOLUTE hit excludes, then any CONDITIONAL one. */
  function Summarize(rs: seq<CheckResult>, excluded: seq<CheckResult>, conditional: seq<CheckResult>)
    : (r: VerificationResult)
    ensures r.verdict == Excluded <==> excluded != []
    ensures r.verdict == ConditionalReview <==> excluded == [] && conditional != []
    ensures r.totalRulesChecked == |rs| && r.excludedCount == |excluded| && r.conditionalCount == |conditional|
    ensures r.passedCount == |rs| - |excluded| - |conditional|
    ensures r.checkResults == rs && r.excludedRules == excluded && r.conditionalRules == conditional
  {
    var passed := |rs| - |excluded| - |conditional|;
    if |excluded| > 0 then
      VerificationResult(Excluded, |rs|, |excluded|, |conditional|, passed, rs, excluded, conditional,
        ExcludedPrefix + NatToString(|excluded|) + ExcludedSuffix, ExcludedAdvice)
    else if |conditional| > 0 then
      VerificationResult(ConditionalReview, |rs|, |excluded|, |conditional|, passed, rs, excluded, conditional,
        ConditionalPrefix + NatToString(|conditional|) + ConditionalSuffix, ConditionalAdvice)
    else
      VerificationResult(Passed, |rs|, |excluded|, |conditional|, passed, rs, excluded, conditional,
        PassedSummary, PassedAdvice)
  }

  /** The stage-1 result of the rule list on the housing data. */
  function Verification(rules: seq<ExclusionRule>, d: HousingData): VerificationResult
  {
    var rs := CheckedResults(rules, RuleChecker(d));
    Summarize(rs, Hits(rs, Absolute), Hits(rs, Conditional))
  }

  /** The stage-1 engine, holding the announcement it checks against. */
  class ExclusionVerificationEngine {
    var config: AnnouncementConfig

    /** Without a configuration, the default one for 경기남부, stamped with `now`. */
    constructor(config: Option<AnnouncementConfig>, now: string)
      ensures config.Some? ==> this.config == config.value
      ensures config.None? ==> this.config == CreateDefaultConfig("경기남부", now)
    {
      if config.Some? {
        this.config := config.value;
      } else {
        this.config := CreateDefaultConfig("경기남부", now);
      }
    }

    /** `verify`: checks every active rule in order and collects the violated ones by severity. */
    method Verify(d: HousingData) returns (r: VerificationResult)
      ensures r == Verification(config.exclusionRules, d)
    {
      var checkResults, excluded, conditional := CollectResults(config.exclusionRules, RuleChecker(d));
      r := Summarize(checkResults, excluded, conditional);
    }
  }

  /**
   * The loop of `verify`: each active rule's check result is appended, and a violated one also
   * goes to the list of its severity.
   */
  method CollectResults(rules: seq<ExclusionRule>, check: ExclusionRule -> CheckResult)
    returns (checkResults: seq<CheckResult>, excluded: seq<CheckResult>, conditional: seq<CheckResult>)
    ensures checkResults == CheckedResults(rules, check)
    ensures excluded == Hits(checkResults, Absolute) && conditional == Hits(checkResults, Conditional)
  {
    checkResults, excluded, conditional := [], [], [];
    var i := 0;
    while i < |rules|
      invariant 0 <= i <= |rules|
      invariant checkResults == CheckedResults(rules[..i], check)
      invariant excluded == Hits(checkResults, Absolute)
      invariant conditional == Hits(checkResults, Conditional)
    {
      var rule := rules[i];
      CheckedResultsSnoc(rules, i, check);
      if rule.isActive {
        var result := check(rule);
        HitsSnoc(checkResults, result, Absolute);
        HitsSnoc(checkResults, result, Conditional);
        checkResults := checkResults + [result];
        if result.isExcluded {
          if result.severity == Absolute {
            excluded := excluded + [result];
          } else if result.severity == Conditional {
            conditional := conditional + [result];
          }
        }
      }
      i := i + 1;
    }
    assert rules[..|rules|] == rules;
  }

  lemma CheckedResultsSnoc(rules: seq<ExclusionRule>, i: nat, check: ExclusionRule -> CheckResult)
    requires i < |rules|
    ensures CheckedResults(rules[..i + 1], check)
      == CheckedResults(rules[..i], check) + (if rules[i].isActive then [check(rules[i])] else [])
  {
    assert rules[..i + 1][..i] == rules[..i];
  }

  lemma HitsSnoc(rs: seq<CheckResult>, x: CheckResult, s: Severity)
    ensures Hits(rs + [x], s) == Hits(rs, s) + (if IsHit(x, s) then [x] else [])
  {
    assert (rs + [x])[..|rs|] == rs;
  }

  /** Each active rule leaves its check result. */
  lemma {:induction false} ActiveRuleChecked(rules: seq<ExclusionRule>, i: nat, check: ExclusionRule -> CheckResult)
    requires i < |rules| && rules[i].isActive
    ensures check(rules[i]) in CheckedResults(rules, check)
    decreases |rules|
  {
    var init := rules[..|rules| - 1];
    if i < |rules| - 1 {
      assert init[i] == rules[i];
      ActiveRuleChecked(init, i, check);
    }
  }

  /** Each check result comes from an active rule. */
  lemma {:induction false} ResultOfActiveRule(rules: seq<ExclusionRule>, check: ExclusionRule -> CheckResult,
                                              r: CheckResult)
    requires r in CheckedResults(rules, check)
    ensures exists i :: 0 <= i < |rules| && rules[i].isActive && r == check(rules[i])
    decreases |rules|
  {
    assert rules != [];
    var init := rules[..|rules| - 1];
    var k := |rules| - 1;
    var tail := if rules[k].isActive then [check(rules[k])] else [];
    assert CheckedResults(rules, check) == CheckedResults(init, check) + tail;
    if r in CheckedResults(init, check) {
      ResultOfActiveRule(init, check, r);
      var i :| 0 <= i < |init| && init[i].isActive && r == check(init[i]);
      assert rules[i] == init[i];
    } else {
      assert r in tail;
    }
  }

  /** Some active rule of severity `s` is violated exactly when the results hold a hit of severity `s`. */
  lemma HitIffViolated(rules: seq<ExclusionRule>, d: HousingData, s: Severity)
    ensures |Hits(CheckedResults(rules, RuleChecker(d)), s)| > 0
      <==> exists i :: 0 <= i < |rules| && rules[i].isActive && rules[i].severity == s && Violated(rules[i], d)
  {
    var check := RuleChecker(d);
    var rs := CheckedResults(rules, check);
    if |Hits(rs, s)| > 0 {
      var h := Hits(rs, s)[0];
      assert h in Hits(rs, s);
      ResultOfActiveRule(rules, check, h);
      var i :| 0 <= i < |rules| && rules[i].isActive && h == check(rules[i]);
      assert h == CheckRule(rules[i], d);
    }
    forall i | 0 <= i < |rules| && rules[i].isActive && rules[i].severity == s && Violated(rules[i], d)
      ensures check(rules[i]) in Hits(rs, s)
    {
      ActiveRuleChecked(rules, i, check);
      assert check(rules[i]) == CheckRule(rules[i], d);
    }
  }

  /**
   * The verdict is EXCLUDED when some active ABSOLUTE rule is violated; otherwise CONDITIONAL when some
   * active CONDITIONAL rule is; otherwise PASSED.
   */
  lemma VerdictIff(rules: seq<ExclusionRule>, d: HousingData)
    ensures Verification(rules, d).verdict == Excluded
      <==> exists i :: 0 <= i < |rules| && rules[i].isActive && rules[i].severity == Absolute && Violated(rules[i], d)
    ensures Verification(rules, d).verdict == ConditionalReview
      <==> ((forall i :: 0 <= i < |rules| && rules[i].isActive && rules[i].severity == Absolute ==> !Violated(rules[i], d))
            && exists i :: 0 <= i < |rules| && rules[i].isActive && rules[i].severity == Conditional && Violated(rules[i], d))
    ensures Verification(rules, d).verdict == Passed
      <==> forall i :: 0 <= i < |rules| && rules[i].isActive && rules[i].severity != Warning ==> !Violated(rules[i], d)
  {
    HitIffViolated(rules, d, Absolute);
    HitIffViolated(rules, d, Conditional);
  }

  /** The number of active rules, counted from the front. */
  function CountActive(rules: seq<ExclusionRule>): nat
  {
    if rules == [] then 0 else (if rules[0].isActive then 1 else 0) + CountActive(rules[1..])
  }

  lemma {:induction false} CountActiveSnoc(rules: seq<ExclusionRule>, r: ExclusionRule)
    ensures CountActive(rules + [r]) == CountActive(rules) + (if r.isActive then 1 else 0)
  {
    if rules != [] {
      assert (rules + [r])[1..] == rules[1..] + [r];
      CountActiveSnoc(rules[1..], r);
    } else {
      assert [r][1..] == [];
    }
  }

  /** Exactly the active rules leave a result. */
  lemma {:induction false} ResultsCountActive(rules: seq<ExclusionRule>, check: ExclusionRule -> CheckResult)
    ensures |CheckedResults(rules, check)| == CountActive(rules)
  {
    if rules != [] {
      var init := rules[..|rules| - 1];
      assert rules == init + [rules[|rules| - 1]];
      ResultsCountActive(init, check);
      CountActiveSnoc(init, rules[|rules| - 1]);
    }
  }

  /** `total_rules_checked` counts the active rules only. */
  lemma TotalCountsActive(rules: seq<ExclusionRule>, d: HousingData)
    ensures Verification(rules, d).totalRulesChecked == CountActive(rules)
  {
    ResultsCountActive(rules, RuleChecker(d));
  }

  /** Every result is a hit of ABSOLUTE or of CONDITIONAL severity, or passes; never two of these. */
  lemma {:induction false} CountPartition(rs: seq<CheckResult>)
    ensures |Hits(rs, Absolute)| + |Hits(rs, Conditional)| + |Passes(rs)| == |rs|
  {
    if rs != [] {
      CountPartition(rs[..|rs| - 1]);
    }
  }

  /** `passed_count` is the number of results that were not violated or were violated as WARNING. */
  lemma PassedCount(rules: seq<ExclusionRule>, d: HousingData)
    ensures Verification(rules, d).passedCount == |Passes(CheckedResults(rules, RuleChecker(d)))| >= 0
    ensures var v := Verification(rules, d);
      v.totalRulesChecked == v.excludedCount + v.conditionalCount + v.passedCount
  {
    CountPartition(CheckedResults(rules, RuleChecker(d)));
  }

  lemma {:induction false} AllActiveCount(rules: seq<ExclusionRule>)
    requires forall i :: 0 <= i < |rules| ==> rules[i].isActive
    ensures CountActive(rules) == |rules|
  {
    if rules != [] {
      assert forall i :: 0 <= i < |rules[1..]| ==> rules[1..][i] == rules[i + 1];
      AllActiveCount(rules[1..]);
    }
  }

  /** When every rule is active, as in the default list, every rule is checked. */
  lemma AllActiveChecked(rules: seq<ExclusionRule>, d: HousingData)
    requires forall i :: 0 <= i < |rules| ==> rules[i].isActive
    ensures Verification(rules, d).totalRulesChecked == |rules|
  {
    AllActiveCount(rules);
    TotalCountsActive(rules, d);
  }

  // ---------------------------------------------------------------- the default conditions

  // Facts about the literal condition texts, one small lemma each.

  lemma StrippedTrue()
    ensures Strip(" True") == "True"
  {
    StripSpacePrefix("True");
    assert " " + "True" == " True";
  }

  lemma StrippedFalse()
    ensures Strip(" False") == "False"
  {
    StripSpacePrefix("False");
    assert " " + "False" == " False";
  }

  lemma ParsedTwo()
    ensures ParseFloat(Strip(" 2")) == Some(2.0)
  {
    StripSpacePrefix("2");
    assert " " + "2" == " 2";
    ParseFloatOfNat(2);
    assert NatToString(2) == "2";
  }

  lemma IsTrueText()
    ensures !Contains("== True", " and ") && Find("== True", "==") == Some(0)
    ensures After("== True", "==") == " True"
  {
    MissingChar("== True", " and ", 1);
    FindAt("== True", "==", 0);
  }

  lemma IsFalseText()
    ensures !Contains("== False", " and ") && Find("== False", "==") == Some(0)
    ensures After("== False", "==") == " False"
  {
    MissingChar("== False", " and ", 2);
    FindAt("== False", "==", 0);
  }

  lemma AtLeastTwoText()
    ensures !Contains(">= 2", " and ") && !Contains(">= 2", "==") && Find(">= 2", ">=") == Some(0)
    ensures After(">= 2", ">=") == " 2"
  {
    MissingChar(">= 2", " and ", 1);
    ContainsIff(">= 2", "==");
    NotAt(">= 2", "==", 0, 0);
    NotAt(">= 2", "==", 1, 1);
    NotAt(">= 2", "==", 2, 0);
    FindAt(">= 2", ">=", 0);
  }

  /** "== True" tests identity with True: the int 1 does not violate it. */
  lemma EqTrueCondition(v: FieldValue, d: HousingData)
    ensures EvaluateCondition(v, "== True", d) <==> v == Flag(true)
  {
    IsTrueText();
    StrippedTrue();
  }

  /** "== False" tests identity with False: the int 0 does not violate it, nor does None. */
  lemma EqFalseCondition(v: FieldValue, d: HousingData)
    ensures EvaluateCondition(v, "== False", d) <==> v == Flag(false)
  {
    IsFalseText();
    StrippedFalse();
  }

  /** ">= 2" compares numerically: only a count of at least two violates it (a bool is 0 or 1). */
  lemma AtLeastTwoCondition(v: FieldValue, d: HousingData)
    ensures EvaluateCondition(v, ">= 2", d) <==> v.Count? && v.n >= 2
  {
    AtLeastTwoText();
    if !v.Absent? {
      AtLeastTwoCompare(v);
    }
  }

  lemma AtLeastTwoCompare(v: FieldValue)
    requires !v.Absent?
    ensures SimpleCondition(v, ">= 2") <==> v.Count? && v.n >= 2
  {
    AtLeastTwoBranch(v);
    CompareWithTwo(v);
  }

  lemma AtLeastTwoBranch(v: FieldValue)
    requires !v.Absent?
    ensures SimpleCondition(v, ">= 2") == Compare(v, " 2", AtLeast)
  {
    AtLeastTwoText();
  }

  lemma CompareWithTwo(v: FieldValue)
    requires !v.Absent?
    ensures Compare(v, " 2", AtLeast) <==> v.Count? && v.n >= 2
  {
    ParsedTwo();
  }

  // ---------------------------------------------------------------- compound conditions

  /** A value written between single quotes in a clause: it keeps its quotes and holds no operator or key. */
  predicate QuotableValue(w: string)
  {
    w != [] && w[0] !in Quotes && w[|w| - 1] !in Quotes
    && !Contains(w, " and ") && !Contains(w, "==") && !Contains(w, ">=") && !Contains(w, "<")
    && !Contains(w, "housing_type")
  }

  /** A character that cannot start, end or sit inside a separator, an operator or a key of a clause. */
  predicate PlainChar(c: char)
  {
    c != ' ' && c != '=' && c != '<' && c != '>' && c != '_' && c !in Quotes
  }

  /** A non-empty value of plain characters, such as a housing type or a date. */
  predicate PlainValue(w: string)
  {
    w != [] && forall i :: 0 <= i < |w| ==> PlainChar(w[i])
  }

  /** A plain value is quotable: none of the separators, operators or keys can occur in it. */
  lemma PlainIsQuotable(w: string)
    requires PlainValue(w)
    ensures QuotableValue(w)
  {
    MissingChar(w, " and ", 0);
    MissingChar(w, "==", 0);
    MissingChar(w, ">=", 1);
    MissingChar(w, "<", 0);
    MissingChar(w, "housing_type", 7);
  }

  /** `" 'w'".strip().strip("'\"")` gives back `w`. */
  lemma UnquoteQuoted(w: string)
    requires QuotableValue(w)
    ensures Unquote(" '" + w + "'") == w
  {
    StripSpacePrefix("'" + w + "'");
    assert " " + ("'" + w + "'") == " '" + w + "'";
    StripCharsEnclosed('\'', w, Quotes);
    assert ['\''] + w + ['\''] == "'" + w + "'";
  }

  /** Splitting `key + op + " 'w'"` on `op` gives the key part and the quoted value. */
  lemma SplitQuoted(key: string, op: string, w: string)
    requires op != [] && op[0] !in key && op[0] !in " '" && op[|op| - 1] !in "'" && !Contains(w, op)
    ensures Split(key + op + (" '" + w + "'"), op) == [key, " '" + w + "'"]
  {
    EnclosedBy(" '", w, "'", op);
    SplitInTwo(key, op, " '" + w + "'", 0);
  }

  /** A clause that starts with a key and ends with a closing quote has no edge space to strip. */
  lemma KeyedUnstripped(key: string, w: string)
    requires key != [] && !IsSpace(key[0])
    ensures Strip(key + w + "'") == key + w + "'"
  {
    var c := key + w + "'";
    assert c[0] == key[0] && c[|c| - 1] == '\'';
    StripNoEdgeSpace(c);
  }

  /** A clause names the key it starts with. */
  lemma KeyedContains(key: string, rest: string)
    ensures Contains(key + rest, key)
  {
    assert key + rest == [] + key + rest;
    ContainsSelfConcat([], key, rest);
  }

  /** `housing_type == 'w'` */
  function HousingTypeText(w: string): string { "housing_type == '" + w + "'" }

  /** `permit_date >= 'w'` */
  function PermitAtLeastText(w: string): string { "permit_date >= '" + w + "'" }

  /** `permit_date < 'w'` */
  function PermitBeforeText(w: string): string { "permit_date < '" + w + "'" }

  lemma HousingTypeShape(w: string)
    requires QuotableValue(w)
    ensures Strip(HousingTypeText(w)) == HousingTypeText(w)
    ensures Contains(HousingTypeText(w), "housing_type")
  {
    KeyedUnstripped("housing_type == '", w);
    assert HousingTypeText(w) == "housing_type" + (" == '" + w + "'");
    KeyedContains("housing_type", " == '" + w + "'");
  }

  lemma HousingTypeSplit(w: string)
    requires QuotableValue(w)
    ensures Split(HousingTypeText(w), "==") == ["housing_type ", " '" + w + "'"]
  {
    assert HousingTypeText(w) == "housing_type " + "==" + (" '" + w + "'");
    SplitQuoted("housing_type ", "==", w);
  }

  /** A `housing_type == 'w'` clause holds exactly when the housing type is `w`. */
  lemma HousingTypeClause(w: string, v: FieldValue, d: HousingData)
    requires QuotableValue(w)
    ensures Clause(HousingTypeText(w), v, d) == Append(d.housingType == w)
  {
    HousingTypeShape(w);
    HousingTypeSplit(w);
    UnquoteQuoted(w);
  }

  lemma PermitAtLeastShape(w: string)
    requires QuotableValue(w)
    ensures Strip(PermitAtLeastText(w)) == PermitAtLeastText(w)
    ensures Contains(PermitAtLeastText(w), "permit_date")
  {
    KeyedUnstripped("permit_date >= '", w);
    assert PermitAtLeastText(w) == "permit_date" + (" >= '" + w + "'");
    KeyedContains("permit_date", " >= '" + w + "'");
  }

  lemma PermitAtLeastNotHousing(w: string)
    requires QuotableValue(w)
    ensures !Contains(PermitAtLeastText(w), "housing_type")
  {
    EnclosedBy("permit_date >= '", w, "'", "housing_type");
  }

  lemma PermitAtLeastSplit(w: string)
    requires QuotableValue(w)
    ensures Split(PermitAtLeastText(w), ">=") == ["permit_date ", " '" + w + "'"]
  {
    assert PermitAtLeastText(w) == "permit_date " + ">=" + (" '" + w + "'");
    SplitQuoted("permit_date ", ">=", w);
  }

  /** A `permit_date >= 'w'` clause holds exactly when a permit date is given and is not before `w` as text. */
  lemma PermitAtLeastClause(w: string, v: FieldValue, d: HousingData)
    requires QuotableValue(w)
    ensures Clause(PermitAtLeastText(w), v, d) == Append(HasPermitDate(d) && !StrLess(d.permitDate.value, w))
  {
    PermitAtLeastShape(w);
    PermitAtLeastNotHousing(w);
    PermitAtLeastSplit(w);
    UnquoteQuoted(w);
  }

  lemma PermitBeforeShape(w: string)
    requires QuotableValue(w)
    ensures Strip(PermitBeforeText(w)) == PermitBeforeText(w)
    ensures Contains(PermitBeforeText(w), "permit_date")
  {
    KeyedUnstripped("permit_date < '", w);
    assert PermitBeforeText(w) == "permit_date" + (" < '" + w + "'");
    KeyedContains("permit_date", " < '" + w + "'");
  }

  lemma PermitBeforeKeys(w: string)
    requires QuotableValue(w)
    ensures !Contains(PermitBeforeText(w), "housing_type")
    ensures !Contains(PermitBeforeText(w), ">=")
  {
    EnclosedBy("permit_date < '", w, "'", "housing_type");
    EnclosedBy("permit_date < '", w, "'", ">=");
  }

  lemma PermitBeforeSplit(w: string)
    requires QuotableValue(w)
    ensures Split(PermitBeforeText(w), "<") == ["permit_date ", " '" + w + "'"]
  {
    assert PermitBeforeText(w) == "permit_date " + "<" + (" '" + w + "'");
    SplitQuoted("permit_date ", "<", w);
  }

  /** A `permit_date < 'w'` clause holds exactly when a permit date is given and is before `w` as text. */
  lemma PermitBeforeClause(w: string, v: FieldValue, d: HousingData)
    requires QuotableValue(w)
    ensures Clause(PermitBeforeText(w), v, d) == Append(HasPermitDate(d) && StrLess(d.permitDate.value, w))
  {
    PermitBeforeShape(w);
    PermitBeforeKeys(w);
    PermitBeforeSplit(w);
    UnquoteQuoted(w);
  }

  lemma TrueClauseUnstripped()
    ensures Strip("== True") == "== True"
  {
    StripNoEdgeSpace("== True");
  }

  lemma TrueClauseNoHousing()
    ensures !Contains("== True", "housing_type")
  {
    MissingChar("== True", "housing_type", 0);
  }

  lemma TrueClauseNoPermit()
    ensures !Contains("== True", "permit_date")
  {
    MissingChar("== True", "permit_date", 0);
  }

  lemma FalseClauseUnstripped()
    ensures Strip("== False") == "== False"
  {
    StripNoEdgeSpace("== False");
  }

  lemma FalseClauseNoHousing()
    ensures !Contains("== False", "housing_type")
  {
    MissingChar("== False", "housing_type", 0);
  }

  lemma FalseClauseNoPermit()
    ensures !Contains("== False", "permit_date")
  {
    MissingChar("== False", "permit_date", 0);
  }

  lemma FalseIsNotTrue()
    ensures !Contains("== False", "== True")
  {
    MissingChar("== False", "== True", 3);
  }

  /** The value clauses of a compound condition compare with `==`, so the int 1 and 0 pass for True and False. */
  lemma FlagClauses(v: FieldValue, d: HousingData)
    ensures Clause("== True", v, d) == Append(EqTrue(v))
    ensures Clause("== False", v, d) == Append(EqFalse(v))
  {
    TrueClauseUnstripped();
    TrueClauseNoHousing();
    TrueClauseNoPermit();
    FalseClauseUnstripped();
    FalseClauseNoHousing();
    FalseClauseNoPermit();
    FalseIsNotTrue();
  }

  lemma HousingTypeHasNoAnd(w: string)
    requires QuotableValue(w)
    ensures !Contains(HousingTypeText(w), " and ")
  {
    assert "housing_type == '"[16..] == "'";
    assert " and "[1] !in "housing_type == '";
    assert " and "[4] !in "'";
    assert " and "[..1] == " ";
    assert forall j :: 1 <= j <= 1 && j <= 17 ==> "housing_type == '"[17 - j..] != " and "[..j];
    EnclosedAt("housing_type == '", w, "'", " and ", 1);
  }

  lemma PermitAtLeastHasNoAnd(w: string)
    requires QuotableValue(w)
    ensures !Contains(PermitAtLeastText(w), " and ")
  {
    assert "permit_date >= '"[15..] == "'" && "permit_date >= '"[14..] == " '";
    assert " and "[2] !in "permit_date >= '" && " and "[4] !in "'";
    assert " and "[..1] == " " && " and "[..2] == " a";
    assert forall j :: 1 <= j <= 2 && j <= 16 ==> "permit_date >= '"[16 - j..] != " and "[..j];
    EnclosedAt("permit_date >= '", w, "'", " and ", 2);
  }

  lemma PermitBeforeHasNoAnd(w: string)
    requires QuotableValue(w)
    ensures !Contains(PermitBeforeText(w), " and ")
  {
    assert "permit_date < '"[14..] == "'" && "permit_date < '"[13..] == " '";
    assert " and "[2] !in "permit_date < '" && " and "[4] !in "'";
    assert " and "[..1] == " " && " and "[..2] == " a";
    assert forall j :: 1 <= j <= 2 && j <= 15 ==> "permit_date < '"[15 - j..] != " and "[..j];
    EnclosedAt("permit_date < '", w, "'", " and ", 2);
  }

  lemma TrueAndSplit(b: string)
    requires !Contains(b, " and ")
    ensures Split("== True" + " and " + b, " and ") == ["== True", b]
  {
    SplitInTwo("== True", " and ", b, 1);
  }

  lemma FalseAndSplit(b: string)
    requires !Contains(b, " and ")
    ensures Split("== False" + " and " + b, " and ") == ["== False", b]
  {
    SplitInTwo("== False", " and ", b, 2);
  }

  /** Two appended outcomes collect to the list of both. */
  lemma CollectTwo(x: bool, y: bool)
    ensures Collect([Append(x), Append(y)]) == Some([x, y])
  {
    assert [Append(y)][1..] == [];
    assert Collect([]) == Some([]);
    assert [y] + [] == [y];
    assert Collect([Append(y)]) == Some([y]);
    assert [Append(x), Append(y)][1..] == [Append(y)];
    assert [x] + [y] == [x, y];
  }

  /** The outcomes of a two-part split are those of its two clauses. */
  lemma TwoOutcomes(a: string, b: string, v: FieldValue, d: HousingData, x: Outcome, y: Outcome)
    requires Clause(a, v, d) == x && Clause(b, v, d) == y
    ensures ClauseOutcomes([a, b], v, d) == [x, y]
  {
    var os := ClauseOutcomes([a, b], v, d);
    assert [a, b][0] == a && [a, b][1] == b;
    assert os[0] == x && os[1] == y;
  }

  /** Two clauses that both append: the condition holds when both results hold. */
  lemma TwoClauses(a: string, b: string, v: FieldValue, d: HousingData, x: bool, y: bool)
    requires Clause(a, v, d) == Append(x) && Clause(b, v, d) == Append(y)
    ensures AllHold([a, b], v, d) <==> x && y
  {
    TwoOutcomes(a, b, v, d, Append(x), Append(y));
    TwoAppended(x, y);
  }

  /** Two appended results: both are collected, and all hold exactly when both do. */
  lemma TwoAppended(x: bool, y: bool)
    ensures Collect([Append(x), Append(y)]) == Some([x, y])
    ensures AllOf([x, y]) <==> x && y
  {
    CollectTwo(x, y);
    assert [x, y][0] == x && [x, y][1] == y;
  }

  /**
   * `== True and housing_type == 'w'` (LOC_011 with w = 다자녀): the value equals True (the int 1
   * included) and the housing type is `w`.
   */
  lemma TrueAndHousingType(w: string, v: FieldValue, d: HousingData)
    requires PlainValue(w)
    ensures EvaluateCondition(v, "== True" + " and " + HousingTypeText(w), d)
      <==> EqTrue(v) && d.housingType == w
  {
    PlainIsQuotable(w);
    HousingTypeHasNoAnd(w);
    TrueAndSplit(HousingTypeText(w));
    FlagClauses(v, d);
    HousingTypeClause(w, v, d);
    TwoClauses("== True", HousingTypeText(w), v, d,
      EqTrue(v), d.housingType == w);
  }

  /**
   * `== False and permit_date >= 'w'` (HSG_006 with w = 2019-11-07): the value equals False and the
   * permit date is present and not before `w`; a missing permit date makes it false.
   */
  lemma FalseAndPermitAtLeast(w: string, v: FieldValue, d: HousingData)
    requires PlainValue(w)
    ensures EvaluateCondition(v, "== False" + " and " + PermitAtLeastText(w), d)
      <==> EqFalse(v) && HasPermitDate(d) && !StrLess(d.permitDate.value, w)
  {
    PlainIsQuotable(w);
    PermitAtLeastHasNoAnd(w);
    FalseAndSplit(PermitAtLeastText(w));
    FlagClauses(v, d);
    PermitAtLeastClause(w, v, d);
    TwoClauses("== False", PermitAtLeastText(w), v, d,
      EqFalse(v), HasPermitDate(d) && !StrLess(d.permitDate.value, w));
  }

  /**
   * `== False and permit_date < 'w'` (HSG_007 with w = 2019-11-07): the value equals False and the
   * permit date is present and before `w`; a missing permit date makes it false.
   */
  lemma FalseAndPermitBefore(w: string, v: FieldValue, d: HousingData)
    requires PlainValue(w)
    ensures EvaluateCondition(v, "== False" + " and " + PermitBeforeText(w), d)
      <==> EqFalse(v) && HasPermitDate(d) && StrLess(d.permitDate.value, w)
  {
    PlainIsQuotable(w);
    PermitBeforeHasNoAnd(w);
    FalseAndSplit(PermitBeforeText(w));
    FlagClauses(v, d);
    PermitBeforeClause(w, v, d);
    TwoClauses("== False", PermitBeforeText(w), v, d,
      EqFalse(v), HasPermitDate(d) && StrLess(d.permitDate.value, w));
  }

  /**
   * The two permit-date conditions split the non-compliant exterior cases: with a permit date given,
   * exactly one of them holds; without one, neither does.
   */
  lemma PermitConditionsPartition(w: string, v: FieldValue, d: HousingData)
    requires PlainValue(w)
    ensures !(EvaluateCondition(v, "== False" + " and " + PermitAtLeastText(w), d)
              && EvaluateCondition(v, "== False" + " and " + PermitBeforeText(w), d))
    ensures EqFalse(v) && HasPermitDate(d)
      ==> EvaluateCondition(v, "== False" + " and " + PermitAtLeastText(w), d)
          || EvaluateCondition(v, "== False" + " and " + PermitBeforeText(w), d)
  {
    FalseAndPermitAtLeast(w, v, d);
    FalseAndPermitBefore(w, v, d);
  }

  // ---------------------------------------------------------------- the default compound rules

  lemma ChildValuePlain()
    ensures PlainValue("다자녀")
  {
  }

  lemma Loc011Text()
    ensures Loc011.checkCondition == "== True" + " and " + HousingTypeText("다자녀")
  {
  }

  lemma Loc011Field(d: HousingData)
    ensures GetFieldValue(Loc011.checkField, d) == Flag(d.nearEntertainment25m)
  {
  }

  /** LOC_011 is violated exactly for a 다자녀 home near an entertainment facility. */
  lemma Loc011Violation(d: HousingData)
    ensures Violated(Loc011, d) <==> d.nearEntertainment25m && d.housingType == "다자녀"
  {
    Loc011Text();
    Loc011Field(d);
    ChildValuePlain();
    TrueAndHousingType("다자녀", Flag(d.nearEntertainment25m), d);
  }

  lemma DateValuePlain()
    ensures PlainValue("2019-11-07")
  {
  }

  lemma Hsg006Literal()
    ensures Hsg006.checkCondition == "== False and permit_date >= '2019-11-07'"
  {
  }

  lemma Hsg006Pieces()
    ensures "== False and permit_date >= '2019-11-07'" == "== False" + " and " + PermitAtLeastText("2019-11-07")
  {
  }

  lemma Hsg006Text()
    ensures Hsg006.checkCondition == "== False" + " and " + PermitAtLeastText("2019-11-07")
  {
    Hsg006Literal();
    Hsg006Pieces();
  }

  lemma Hsg007Literal()
    ensures Hsg007.checkCondition == "== False and permit_date < '2019-11-07'"
  {
  }

  lemma Hsg007Pieces()
    ensures "== False and permit_date < '2019-11-07'" == "== False" + " and " + PermitBeforeText("2019-11-07")
  {
  }

  lemma Hsg007Text()
    ensures Hsg007.checkCondition == "== False" + " and " + PermitBeforeText("2019-11-07")
  {
    Hsg007Literal();
    Hsg007Pieces();
  }

  lemma ExteriorFields(d: HousingData)
    ensures GetFieldValue(Hsg006.checkField, d) == Flag(d.exteriorMaterialCompliant)
    ensures GetFieldValue(Hsg007.checkField, d) == Flag(d.exteriorMaterialCompliant)
  {
  }

  /** HSG_006 is violated exactly for a non-compliant exterior with a permit dated 2019-11-07 or later. */
  lemma Hsg006Violation(d: HousingData)
    ensures Violated(Hsg006, d)
      <==> !d.exteriorMaterialCompliant && HasPermitDate(d) && !StrLess(d.permitDate.value, "2019-11-07")
  {
    Hsg006Text();
    ExteriorFields(d);
    DateValuePlain();
    FalseAndPermitAtLeast("2019-11-07", Flag(d.exteriorMaterialCompliant), d);
  }

  /** HSG_007 is violated exactly for a non-compliant exterior with a permit dated before 2019-11-07. */
  lemma Hsg007Violation(d: HousingData)
    ensures Violated(Hsg007, d)
      <==> !d.exteriorMaterialCompliant && HasPermitDate(d) && StrLess(d.permitDate.value, "2019-11-07")
  {
    Hsg007Text();
    ExteriorFields(d);
    DateValuePlain();
    FalseAndPermitBefore("2019-11-07", Flag(d.exteriorMaterialCompliant), d);
  }

  /**
   * A non-compliant exterior with a permit date violates exactly one of HSG_006 and HSG_007; without a
   * permit date, or with a compliant exterior, it violates neither.
   */
  lemma ExteriorRulesPartition(d: HousingData)
    ensures !(Violated(Hsg006, d) && Violated(Hsg007, d))
    ensures Violated(Hsg006, d) || Violated(Hsg007, d) <==> !d.exteriorMaterialCompliant && HasPermitDate(d)
  {
    Hsg006Violation(d);
    Hsg007Violation(d);
  }
}
