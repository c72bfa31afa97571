/**
 * The announcement-based purchase-exclusion rules (stage 1 of the review): the rule and
 * check-result records, the announcement configuration with its defaults, and the 2025
 * Gyeonggi-South default rule list (announcement pages 4-7) as literal data.
 */
module ExclusionRules {
  import opened Wrappers

  datatype Category = Location | HousingCondition | Other

  datatype Severity = Absolute | Conditional | Warning

  datatype ExclusionRule = ExclusionRule(
    ruleId: string,
    category: Category,
    subCategory: string,
    description: string,
    severity: Severity,
    checkField: string,
    checkCondition: string,
    exceptionCondition: Option<string>,
    exceptionDocuments: seq<string>,
    legalBasis: Option<string>,
    referencePage: Option<int>,
    isActive: bool)

  datatype CheckResult = CheckResult(
    ruleId: string,
    ruleDescription: string,
    isExcluded: bool,
    severity: Severity,
    reason: string,
    exceptionApplied: bool,
    requiresManualCheck: bool,
    evidence: Option<string>)

  /** Area band of one housing type, in square metres. */
  datatype AreaBand = AreaBand(min: int, max: int)

  datatype AnnouncementConfig = AnnouncementConfig(
    announcementId: string,
    title: string,
    region: string,
    announcementDate: string,
    applicationStart: string,
    applicationEnd: string,
    minUnits: int,
    maxExclusiveArea: real,
    minConstructionStart: string,
    minApprovalDate: string,
    officetelMinApproval: string,
    areaByType: seq<(string, AreaBand)>,
    exclusionRules: seq<ExclusionRule>,
    createdAt: string,
    updatedAt: string,
    sourceFile: string)

  /** The default area band of each housing type, in the order the defaults list them. */
  const DefaultAreaByType: seq<(string, AreaBand)> := [
    ("일반", AreaBand(20, 85)),
    ("청년", AreaBand(16, 60)),
    ("기숙사형", AreaBand(16, 60)),
    ("신혼신생아1", AreaBand(36, 85)),
    ("신혼신생아2", AreaBand(36, 85)),
    ("다자녀", AreaBand(46, 85))]

  /** `AnnouncementConfig(...)` given only its required fields: every other field takes its default. */
  function NewConfig(id: string, title: string, region: string, date: string, start: string, end: string)
    : (c: AnnouncementConfig)
    ensures c.minUnits == 15 && c.maxExclusiveArea == 85.0
    ensures c.minConstructionStart == "2009-01-01" && c.minApprovalDate == "2015-01-01"
    ensures c.officetelMinApproval == "2010-01-01"
    ensures forall i :: 0 <= i < |c.areaByType| ==> c.areaByType[i].1.min <= c.areaByType[i].1.max
    ensures c.exclusionRules == []
  {
    AnnouncementConfig(id, title, region, date, start, end, 15, 85.0, "2009-01-01", "2015-01-01", "2010-01-01",
      DefaultAreaByType, [], "", "", "")
  }

  /**
   * `AnnouncementConfigManager.create_default_config(region)`; `now` is the ISO timestamp
   * the clock would give.
   */
  function CreateDefaultConfig(region: string, now: string): (c: AnnouncementConfig)
    ensures c.exclusionRules == DefaultRules()
    ensures c.announcementDate == "2025-07-04" && c.region == region
    ensures c.minUnits == 15 && c.maxExclusiveArea == 85.0
    ensures forall i :: 0 <= i < |c.areaByType| ==> c.areaByType[i].1.min <= c.areaByType[i].1.max
  {
    NewConfig("2025_" + region + "_001", "2025년도 " + region + "지역 기존주택 매입 공고", region,
      "2025-07-04", "2025-07-07", "2025-09-30")
    .(exclusionRules := DefaultRules(), createdAt := now, updatedAt := now,
      sourceFile := "2025년경기남부지역기존주택매입공고문.pdf")
  }

  // ---------------------------------------------------------------- the 2025 default rules

  // core/exclusion_rules.py:133
  const Loc001: ExclusionRule := ExclusionRule(
    "LOC_001", Location, "재정비촉진지구",
    "「도시재정비 촉진을 위한 특별법」에 의한 재정비촉진지구 내 주택",
    Conditional, "land_use_plan.is_redevelopment_zone", "== True",
    Some("해제절차 진행 중이거나 존치관리구역으로 지정된 경우"),
    ["지구해제 합의서", "존치관리구역 지정 확인서"], Some("도시재정비 촉진을 위한 특별법"), Some(4), true)

  // core/exclusion_rules.py:148
  const Loc002: ExclusionRule := ExclusionRule(
    "LOC_002", Location, "정비구역",
    "「도시 및 주거환경정비법」에 의한 정비구역 내 주택",
    Conditional, "land_use_plan.is_maintenance_zone", "== True",
    Some("현지개량방식의 주거환경개선사업계획이 확정/준공된 경우"),
    ["주거환경개선사업 확정/준공 확인서"], Some("도시 및 주거환경정비법"), Some(4), true)

  // core/exclusion_rules.py:163
  const Loc003: ExclusionRule := ExclusionRule(
    "LOC_003", Location, "공공주택지구",
    "「공공주택 특별법」에 의한 공공주택지구 및 도심공공주택복합지구(후보지 포함) 내 주택",
    Absolute, "land_use_plan.is_public_housing_zone", "== True",
    None,
    [], Some("공공주택 특별법"), Some(4), true)

  // core/exclusion_rules.py:176
  const Loc004: ExclusionRule := ExclusionRule(
    "LOC_004", Location, "택지개발예정지구",
    "「택지개발촉진법」에 의한 택지개발예정지구 내 주택",
    Absolute, "land_use_plan.is_housing_development_zone", "== True",
    None,
    [], Some("택지개발촉진법"), Some(4), true)

  // core/exclusion_rules.py:189
  const Loc005: ExclusionRule := ExclusionRule(
    "LOC_005", Location, "소규모주택정비사업구역",
    "「빈집 및 소규모주택 정비에 관한 특례법」에 따른 사업시행구역 내 주택",
    Absolute, "land_use_plan.is_small_housing_redevelopment_zone", "== True",
    None,
    [], Some("빈집 및 소규모주택 정비에 관한 특례법"), Some(4), true)

  // core/exclusion_rules.py:202
  const Loc006: ExclusionRule := ExclusionRule(
    "LOC_006", Location, "도시가스_미설치",
    "도시가스 미설치 지역의 주택",
    Conditional, "utilities.has_city_gas", "== False",
    Some("농어촌 등 지역여건상 설치 불가능 지역이거나 매도자가 설치하여 문제없는 경우"),
    [], None, Some(4), true)

  // core/exclusion_rules.py:215
  const Loc007: ExclusionRule := ExclusionRule(
    "LOC_007", Location, "상하수도_미설치",
    "상하수도 미설치 지역의 주택",
    Conditional, "utilities.has_water_sewage", "== False",
    Some("농어촌 등 지역여건상 설치 불가능 지역이거나 매도자가 설치하여 문제없는 경우"),
    [], None, Some(4), true)

  // core/exclusion_rules.py:228
  const Loc008: ExclusionRule := ExclusionRule(
    "LOC_008", Location, "군부대_화장장_인접",
    "직선거리 500m 이내 군부대 사격장·화장장이 있는 지역의 주택",
    Absolute, "location.near_military_or_crematorium_500m", "== True",
    None,
    [], None, Some(5), true)

  // core/exclusion_rules.py:240
  const Loc009: ExclusionRule := ExclusionRule(
    "LOC_009", Location, "유해시설_50m",
    "직선거리 50m 이내「주택건설기준 등에 관한 규정」제9조의2 제1항 제1호 및 제2호 시설이 있는 주택",
    Conditional, "location.near_harmful_facility_50m", "== True",
    Some("주거용 오피스텔은 해당 기준 미적용"),
    [], None, Some(5), true)

  // core/exclusion_rules.py:253
  const Loc010: ExclusionRule := ExclusionRule(
    "LOC_010", Location, "주유소_25m",
    "직선거리 25m 이내 주유소·석유판매취급소·자동차용 천연가스충전소가 있는 주택",
    Absolute, "location.near_gas_station_25m", "== True",
    None,
    [], None, Some(5), true)

  // core/exclusion_rules.py:265
  const Loc011: ExclusionRule := ExclusionRule(
    "LOC_011", Location, "숙박위락시설_25m_다자녀",
    "직선거리 25m 이내 일반숙박시설·위락시설이 있는 다자녀 유형 주택",
    Absolute, "location.near_entertainment_25m", "== True and housing_type == '다자녀'",
    None,
    [], None, Some(5), true)

  // core/exclusion_rules.py:277
  const Loc012: ExclusionRule := ExclusionRule(
    "LOC_012", Location, "맹지",
    "맹지 상태 또는 타인 소유의 시설물에 의해 부속토지가 점유된 주택",
    Conditional, "land.is_landlocked", "== True",
    Some("점유해소 가능한 객관적 증빙자료 제출 시 조건부 신청 가능"),
    ["점유해소 증빙자료"], None, Some(5), true)

  // core/exclusion_rules.py:291
  const Loc013: ExclusionRule := ExclusionRule(
    "LOC_013", Location, "진입도로_미확보",
    "주택 진입도로가 미확보된 주택 (출입로가 사도인 경우 등)",
    Conditional, "land.has_access_road", "== False",
    Some("진입도로가 사도인 경우 LH에 무상귀속 또는 지자체에 기부채납 조건, 또는 지역권 설정 계약 및 등기된 경우"),
    ["무상귀속 확인서", "기부채납 확인서", "지역권 설정계약서"], None, Some(5), true)

  const LocationRules: seq<ExclusionRule> := [Loc001, Loc002, Loc003, Loc004, Loc005, Loc006, Loc007, Loc008, Loc009, Loc010, Loc011, Loc012, Loc013]

  // core/exclusion_rules.py:309
  const Hsg001: ExclusionRule := ExclusionRule(
    "HSG_001", HousingCondition, "지하세대",
    "지하(반지하 포함) 세대가 있는 주택",
    Absolute, "building.has_basement_units", "== True",
    None,
    [], None, Some(6), true)

  // core/exclusion_rules.py:321
  const Hsg002: ExclusionRule := ExclusionRule(
    "HSG_002", HousingCondition, "최저주거기준_미달",
    "국토교통부 공고「최저주거기준」에 미달하는 주택",
    Absolute, "building.meets_minimum_housing_standard", "== False",
    None,
    [], Some("국토교통부 최저주거기준"), Some(6), true)

  // core/exclusion_rules.py:334
  const Hsg003: ExclusionRule := ExclusionRule(
    "HSG_003", HousingCondition, "불법건축물",
    "불법 건축물 및 법률상 제한사유(건축법 위반, 압류 및 가압류, 경매개시 등)가 있는 주택",
    Conditional, "building.is_illegal_construction", "== True",
    Some("불법건축물을 치유하여 구조상 문제가 없는 경우, 법률상 제한사유 해소 가능한 경우 조건부 신청 가능"),
    [], None, Some(6), true)

  // core/exclusion_rules.py:347
  const Hsg004: ExclusionRule := ExclusionRule(
    "HSG_004", HousingCondition, "압류_가압류",
    "압류 및 가압류가 있는 주택",
    Conditional, "registry.has_seizure", "== True",
    Some("법률상 제한사유 해소 가능한 경우 조건부 신청 가능"),
    [], None, Some(6), true)

  // core/exclusion_rules.py:360
  const Hsg005: ExclusionRule := ExclusionRule(
    "HSG_005", HousingCondition, "경매개시",
    "경매개시 결정이 있는 주택",
    Conditional, "registry.has_auction", "== True",
    Some("법률상 제한사유 해소 가능한 경우 조건부 신청 가능"),
    [], None, Some(6), true)

  // core/exclusion_rules.py:373
  const Hsg006: ExclusionRule := ExclusionRule(
    "HSG_006", HousingCondition, "외벽마감재_부적합_신규",
    "건축허가일이 2019.11.7일 이후인 경우 외벽 마감재료가 준불연재 또는 불연재 성능을 만족하지 않는 주택",
    Absolute, "building.exterior_material_compliant", "== False and permit_date >= '2019-11-07'",
    None,
    ["외벽 단열재 시험성적서", "납품확인서", "시공사진"], None, Some(6), true)

  // core/exclusion_rules.py:386
  const Hsg007: ExclusionRule := ExclusionRule(
    "HSG_007", HousingCondition, "외벽마감재_부적합_기존",
    "건축허가일이 2019.11.6일 이전인 경우 외벽 단열재 또는 마감재가 준불연재 성능 이상을 만족하지 않는 주택",
    Absolute, "building.exterior_material_compliant", "== False and permit_date < '2019-11-07'",
    None,
    ["외벽 단열재/마감재 시험성적서"], None, Some(6), true)

  // core/exclusion_rules.py:399
  const Hsg008: ExclusionRule := ExclusionRule(
    "HSG_008", HousingCondition, "내진설계_미반영",
    "관련법령(건축법 등)에 따른 내진설계가 반영되지 않은 주택",
    Absolute, "building.has_seismic_design", "== False",
    Some("내진설계 기준은 건축허가 시점의 적용기준을 따름"),
    [], Some("건축법"), Some(6), true)

  // core/exclusion_rules.py:413
  const Hsg009: ExclusionRule := ExclusionRule(
    "HSG_009", HousingCondition, "계량기_미설치",
    "세대별 전기 및 수도계량기가 설치되지 않은 주택",
    Conditional, "building.has_individual_meters", "== False",
    Some("계량기 추가설치가 가능한 경우 조건부 신청 가능"),
    [], None, Some(6), true)

  // core/exclusion_rules.py:426
  const Hsg010: ExclusionRule := ExclusionRule(
    "HSG_010", HousingCondition, "주거공간_미확보",
    "세대 내 보일러실 및 세탁기, 냉장고 및 조리공간 확보가 어려운 주택",
    Absolute, "building.has_adequate_living_space", "== False",
    None,
    [], None, Some(6), true)

  // core/exclusion_rules.py:438
  const Hsg011: ExclusionRule := ExclusionRule(
    "HSG_011", HousingCondition, "승강기_미설치",
    "승강기 미설치 주택",
    Absolute, "building.has_elevator", "== False",
    None,
    [], None, Some(6), true)

  // core/exclusion_rules.py:450
  const Hsg012: ExclusionRule := ExclusionRule(
    "HSG_012", HousingCondition, "욕실배관_매립",
    "욕실 천장 오·배수관이 콘크리트에 매립된 주택",
    Absolute, "building.bathroom_pipes_embedded", "== True",
    None,
    [], None, Some(6), true)

  const HousingRules: seq<ExclusionRule> := [Hsg001, Hsg002, Hsg003, Hsg004, Hsg005, Hsg006, Hsg007, Hsg008, Hsg009, Hsg010, Hsg011, Hsg012]

  // core/exclusion_rules.py:466
  const Oth001: ExclusionRule := ExclusionRule(
    "OTH_001", Other, "권리관계_미해소",
    "주택의 잔여지분이 존재하거나, 부동산 권리관계가 해소되지 않은 등 법률적 또는 사실적 분쟁이 있는 주택",
    Absolute, "ownership.has_unresolved_rights", "== True",
    None,
    [], None, Some(6), true)

  // core/exclusion_rules.py:478
  const Oth002: ExclusionRule := ExclusionRule(
    "OTH_002", Other, "LH직원_가족",
    "매도신청인 본인 및 직계 존·비속, 배우자 및 배우자의 직계 존·비속이 前·現 공사 직원인 경우",
    Absolute, "applicant.is_lh_employee_or_family", "== True",
    Some("퇴직직원의 경우 퇴직일로부터 5년간 적용"),
    [], None, Some(6), true)

  // core/exclusion_rules.py:491
  const Oth003: ExclusionRule := ExclusionRule(
    "OTH_003", Other, "부정행위_제재자",
    "청탁 등 부정한 행위로 공사로부터 제재를 받은 행위자가 소유(중개)하는 주택",
    Absolute, "applicant.has_fraud_sanction", "== True",
    None,
    [], None, Some(7), true)

  // core/exclusion_rules.py:503
  const Oth004: ExclusionRule := ExclusionRule(
    "OTH_004", Other, "재신청_제한",
    "공사에서 2회 이상 매입대상 제외한 주택으로 매입 제외 사유를 해소하지 않고 재신청한 주택",
    Conditional, "history.exclusion_count", ">= 2",
    Some("매입 제외 사유를 해소한 경우 신청 가능"),
    [], None, Some(7), true)

  // core/exclusion_rules.py:516
  const Oth005: ExclusionRule := ExclusionRule(
    "OTH_005", Other, "미분양_아파트",
    "미분양 아파트에 해당하는 주택",
    Conditional, "building.is_unsold_apartment", "== True",
    Some("도시형생활주택 아파트는 매입 가능"),
    [], None, Some(7), true)

  // core/exclusion_rules.py:529
  const Oth006: ExclusionRule := ExclusionRule(
    "OTH_006", Other, "전세사기피해_주택",
    "「전세사기 피해자 지원 및 주거안정에 관한 특별법」에 따른 전세사기피해 주택",
    Absolute, "building.is_jeonse_fraud_housing", "== True",
    None,
    [], Some("전세사기 피해자 지원 및 주거안정에 관한 특별법"), Some(7), true)

  const OtherRules: seq<ExclusionRule> := [Oth001, Oth002, Oth003, Oth004, Oth005, Oth006]

  /** `get_default_exclusion_rules_2025_gyeonggi_south()` */
  function DefaultRules(): seq<ExclusionRule>
  {
    LocationRules + HousingRules + OtherRules
  }

  // ---------------------------------------------------------------- laws

  /** A conditional rule carries a non-empty exception condition. */
  predicate ExceptionStated(r: ExclusionRule)
  {
    r.severity == Conditional ==> r.exceptionCondition.Some? && r.exceptionCondition.value != ""
  }

  /** Active, and stating its exception when conditional. */
  predicate RuleShape(r: ExclusionRule)
  {
    r.isActive && ExceptionStated(r)
  }

  function DigitChar(d: nat): char
    requires d < 10
  {
    ('0' as int + d) as char
  }

  /** A number below 1000 written with three digits, as in "007". */
  function Pad3(n: nat): (r: string)
    requires n < 1000
    ensures |r| == 3
  {
    [DigitChar(n / 100), DigitChar(n / 10 % 10), DigitChar(n % 10)]
  }

  lemma DigitCharInjective(d: nat, e: nat)
    requires d < 10 && e < 10 && DigitChar(d) == DigitChar(e)
    ensures d == e
  {
    assert DigitChar(d) as int == '0' as int + d;
    assert DigitChar(e) as int == '0' as int + e;
  }

  lemma ThreeDigits(m: nat)
    requires m < 1000
    ensures m == (m / 100) * 100 + (m / 10 % 10) * 10 + m % 10
  {
    var q := m / 10;
    assert m == q * 10 + m % 10;
    assert q == (q / 10) * 10 + q % 10;
    assert q / 10 == m / 100;
  }

  lemma Pad3Injective(m: nat, n: nat)
    requires m < 1000 && n < 1000 && Pad3(m) == Pad3(n)
    ensures m == n
  {
    assert Pad3(m)[0] == Pad3(n)[0] && Pad3(m)[1] == Pad3(n)[1] && Pad3(m)[2] == Pad3(n)[2];
    DigitCharInjective(m / 100, n / 100);
    DigitCharInjective(m / 10 % 10, n / 10 % 10);
    DigitCharInjective(m % 10, n % 10);
    ThreeDigits(m);
    ThreeDigits(n);
  }

  /** The id of the i-th default rule: LOC_001-LOC_013, then HSG_001-HSG_012, then OTH_001-OTH_006. */
  function DefaultId(i: nat): string
    requires i < 31
  {
    if i < 13 then "LOC_" + Pad3(i + 1)
    else if i < 25 then "HSG_" + Pad3(i - 12)
    else "OTH_" + Pad3(i - 24)
  }

  lemma DefaultIdInjective(i: nat, j: nat)
    requires i < 31 && j < 31 && i != j
    ensures DefaultId(i) != DefaultId(j)
  {
    if DefaultId(i) == DefaultId(j) {
      assert DefaultId(i)[0] == DefaultId(j)[0];
      assert DefaultId(i)[4..] == DefaultId(j)[4..];
      if i < 13 && j < 13 {
        assert DefaultId(i)[4..] == Pad3(i + 1) && DefaultId(j)[4..] == Pad3(j + 1);
        Pad3Injective(i + 1, j + 1);
      } else if 13 <= i < 25 && 13 <= j < 25 {
        assert DefaultId(i)[4..] == Pad3(i - 12) && DefaultId(j)[4..] == Pad3(j - 12);
        Pad3Injective(i - 12, j - 12);
      } else if 25 <= i && 25 <= j {
        assert DefaultId(i)[4..] == Pad3(i - 24) && DefaultId(j)[4..] == Pad3(j - 24);
        Pad3Injective(i - 24, j - 24);
      }
    }
  }

  lemma LocationFactsLow()
    ensures |LocationRules| == 13
    ensures forall i :: 0 <= i < 7 ==> RuleShape(LocationRules[i]) && LocationRules[i].ruleId == "LOC_" + Pad3(i + 1)
  {
    forall i | 0 <= i < 7
      ensures RuleShape(LocationRules[i]) && LocationRules[i].ruleId == "LOC_" + Pad3(i + 1)
    {
      if i == 0 {
      } else 
      if i == 1 {
      } else 
      if i == 2 {
      } else 
      if i == 3 {
      } else 
      if i == 4 {
      } else 
      if i == 5 {
      } else {
      }
    }
  }

  lemma LocationFactsHigh()
    ensures |LocationRules| == 13
    ensures forall i :: 7 <= i < 13 ==> RuleShape(LocationRules[i]) && LocationRules[i].ruleId == "LOC_" + Pad3(i + 1)
  {
    forall i | 7 <= i < 13
      ensures RuleShape(LocationRules[i]) && LocationRules[i].ruleId == "LOC_" + Pad3(i + 1)
    {
      if i == 7 {
      } else 
      if i == 8 {
      } else 
      if i == 9 {
      } else 
      if i == 10 {
      } else 
      if i == 11 {
      } else {
      }
    }
  }

  lemma LocationFacts()
    ensures |LocationRules| == 13
    ensures forall i :: 0 <= i < 13 ==> RuleShape(LocationRules[i]) && LocationRules[i].ruleId == "LOC_" + Pad3(i + 1)
  {
    LocationFactsLow();
    LocationFactsHigh();
  }

  lemma HousingFactsLow()
    ensures |HousingRules| == 12
    ensures forall i :: 0 <= i < 6 ==> RuleShape(HousingRules[i]) && HousingRules[i].ruleId == "HSG_" + Pad3(i + 1)
  {
    forall i | 0 <= i < 6
      ensures RuleShape(HousingRules[i]) && HousingRules[i].ruleId == "HSG_" + Pad3(i + 1)
    {
      if i == 0 {
      } else 
      if i == 1 {
      } else 
      if i == 2 {
      } else 
      if i == 3 {
      } else 
      if i == 4 {
      } else {
      }
    }
  }

  lemma HousingFactsHigh()
    ensures |HousingRules| == 12
    ensures forall i :: 6 <= i < 12 ==> RuleShape(HousingRules[i]) && HousingRules[i].ruleId == "HSG_" + Pad3(i + 1)
  {
    forall i | 6 <= i < 12
      ensures RuleShape(HousingRules[i]) && HousingRules[i].ruleId == "HSG_" + Pad3(i + 1)
    {
      if i == 6 {
      } else 
      if i == 7 {
      } else 
      if i == 8 {
      } else 
      if i == 9 {
      } else 
      if i == 10 {
      } else {
      }
    }
  }

  lemma HousingFacts()
    ensures |HousingRules| == 12
    ensures forall i :: 0 <= i < 12 ==> RuleShape(HousingRules[i]) && HousingRules[i].ruleId == "HSG_" + Pad3(i + 1)
  {
    HousingFactsLow();
    HousingFactsHigh();
  }

  lemma OtherFacts()
    ensures |OtherRules| == 6
    ensures forall i :: 0 <= i < 6 ==> RuleShape(OtherRules[i]) && OtherRules[i].ruleId == "OTH_" + Pad3(i + 1)
  {
    forall i | 0 <= i < 6
      ensures RuleShape(OtherRules[i]) && OtherRules[i].ruleId == "OTH_" + Pad3(i + 1)
    {
      if i == 0 {
      } else 
      if i == 1 {
      } else 
      if i == 2 {
      } else 
      if i == 3 {
      } else 
      if i == 4 {
      } else {
      }
    }
  }

  /**
   * The default list has 31 rules with the ids LOC_001-013, HSG_001-012 and OTH_001-006, so
   * no two share an id; every one is active and every conditional one states its exception.
   */
  lemma DefaultRulesFacts()
    ensures |DefaultRules()| == 31
    ensures forall i :: 0 <= i < 31 ==> DefaultRules()[i].ruleId == DefaultId(i) && RuleShape(DefaultRules()[i])
    ensures forall i, j :: 0 <= i < j < 31 ==> DefaultRules()[i].ruleId != DefaultRules()[j].ruleId
  {
    LocationFacts();
    HousingFacts();
    OtherFacts();
    var rs := DefaultRules();
    forall i | 0 <= i < 31
      ensures rs[i].ruleId == DefaultId(i) && RuleShape(rs[i])
    {
      if i < 13 {
        assert rs[i] == LocationRules[i];
      } else if i < 25 {
        assert rs[i] == HousingRules[i - 13];
      } else {
        assert rs[i] == OtherRules[i - 25];
      }
    }
    forall i, j | 0 <= i < j < 31
      ensures rs[i].ruleId != rs[j].ruleId
    {
      DefaultIdInjective(i, j);
    }
  }
}
