/**
 * The rule-30 test-certificate validator: which kinds of test a certificate shows, its
 * five-way status, and the per-material check of the as-built drawing's materials against
 * the submitted test certificates and delivery confirmations.
 *
 * The test standards (KS F ISO 5660 heat release, KS F 2271 gas toxicity, KS L ISO 8302 and
 * KS L 9016 thermal conductivity) are recognised only as plain substrings of the text; the
 * validator does not implement them.
 */
module TestCertificateValidator {
  import opened Wrappers
  import opened Text
  import opened Values

  // ---------------------------------------------------------------- records

  datatype CertStatus =
    | Valid
    | MissingHeat
    | MissingGas
    | MissingBoth
    | ThermalOnly
    | NotSubmitted
    | StoneException

  /** One submitted test certificate and its verdict. */
  datatype CertificateInfo = CertificateInfo(
    fileName: string,
    materialName: string,
    hasHeatRelease: bool,
    hasGasToxicity: bool,
    hasThermalConductivity: bool,
    detectedTests: seq<string>,
    isValid: bool,
    status: CertStatus,
    message: string)

  /** The state of one required material (the unused certificate back-reference is omitted). */
  datatype MaterialStatus = MaterialStatus(
    materialType: string,
    materialName: string,
    testCertExists: bool,
    testCertValid: bool,
    deliveryConfExists: bool,
    isStoneException: bool,
    needsSupplement: bool,
    supplementReasons: seq<string>)

  datatype ValidationResult = ValidationResult(
    requiredMaterials: seq<MaterialStatus>,
    submittedTestCerts: seq<CertificateInfo>,
    hasAnyValidTestCert: bool,
    deliveryConfSubmitted: bool,
    supplementItems: seq<string>,
    isPassed: bool,
    summary: string)

  /**
   * One entry of `test_certs`: the fields the validator reads from the dictionary, and the
   * dictionary itself, which also serves as the AI analysis.
   */
  datatype CertificateData = CertificateData(
    fileName: string,
    rawText: string,
    detectedTests: seq<string>,
    materialName: Option<string>,
    analysis: Dict)

  // ---------------------------------------------------------------- keyword tables

  const HeatReleaseKeywords: seq<string> := [
    "열방출", "열방출량", "총열방출량", "총열방출율", "열방출률", "열방출율",
    "thr", "total heat release", "heat release rate", "hrr",
    "열량방출", "열에너지", "발열량", "발열율",
    "cone calorimeter", "콘칼로리미터",
    "ks f iso 5660", "5660", "iso 5660",
    "준불연", "불연", "난연"]

  const GasToxicityKeywords: seq<string> := [
    "가스유해성", "가스유해", "가스독성", "연소가스유해성", "연소가스",
    "gas toxicity", "gas toxic", "toxicity test", "toxic gas",
    "유해가스", "유독가스", "연기독성", "연기유해성",
    "ks f 2271", "2271",
    "마우스", "mouse", "동물시험"]

  const ThermalConductivityKeywords: seq<string> := [
    "열전도율", "열전도", "열전달", "열전도계수",
    "thermal conductivity", "heat conductivity", "k-value", "k값",
    "ks l iso 8302", "8302", "iso 8302",
    "ks l 9016", "9016",
    "단열성능", "단열시험"]

  const StoneKeywords: seq<string> := [
    "석재", "화강석", "대리석", "현무암", "사암", "석회암",
    "granite", "marble", "stone", "basalt",
    "타일", "테라코타", "세라믹", "도자기", "자기질"]

  // ---------------------------------------------------------------- keyword detection

  /** `_check_keywords`: some keyword, lower-cased, occurs in the lower-cased text. */
  predicate CheckKeywords(text: string, keywords: seq<string>)
  {
    exists i :: 0 <= i < |keywords| && Contains(Lower(text), Lower(keywords[i]))
  }

  function LowerAll(xs: seq<string>): (r: seq<string>)
    ensures |r| == |xs|
    ensures forall i :: 0 <= i < |xs| ==> r[i] == Lower(xs[i])
  {
    if xs == [] then [] else [Lower(xs[0])] + LowerAll(xs[1..])
  }

  /** The lower-cased text, followed by the lower-cased detected tests joined with spaces. */
  function AllText(text: string, detected: seq<string>): string
  {
    if detected == [] then Lower(text) else Lower(text) + " " + Join(LowerAll(detected), " ")
  }

  /** `detect_test_types`: (heat release, gas toxicity, thermal conductivity). A keyword
      occurring in the certificate text turns its component on, whatever was detected. */
  function DetectTestTypes(text: string, detected: seq<string>): (r: (bool, bool, bool))
    ensures CheckKeywords(text, HeatReleaseKeywords) ==> r.0
    ensures CheckKeywords(text, GasToxicityKeywords) ==> r.1
    ensures CheckKeywords(text, ThermalConductivityKeywords) ==> r.2
  {
    DetectionSeesAny(text, detected, HeatReleaseKeywords);
    DetectionSeesAny(text, detected, GasToxicityKeywords);
    DetectionSeesAny(text, detected, ThermalConductivityKeywords);
    var all := AllText(text, detected);
    (CheckKeywords(all, HeatReleaseKeywords), CheckKeywords(all, GasToxicityKeywords),
     CheckKeywords(all, ThermalConductivityKeywords))
  }

  /** `is_stone_material` */
  predicate IsStoneMaterial(name: string)
  {
    name != [] && CheckKeywords(Lower(name), StoneKeywords)
  }

  lemma {:induction false} LowerJoinOfLowered(xs: seq<string>)
    ensures Lower(Join(LowerAll(xs), " ")) == Join(LowerAll(xs), " ")
  {
    if |xs| > 1 {
      LowerJoinOfLowered(xs[1..]);
      var rest := Join(LowerAll(xs[1..]), " ");
      assert LowerAll(xs)[1..] == LowerAll(xs[1..]);
      assert Join(LowerAll(xs), " ") == Lower(xs[0]) + " " + rest;
      LowerConcat(Lower(xs[0]) + " ", rest);
      LowerConcat(Lower(xs[0]), " ");
      LowerIdempotent(xs[0]);
    } else if |xs| == 1 {
      LowerIdempotent(xs[0]);
    }
  }

  lemma LowerTextSpace(text: string, joined: string)
    requires Lower(joined) == joined
    ensures Lower(Lower(text) + " " + joined) == Lower(text) + " " + joined
  {
    LowerIdempotent(text);
    LowerConcat(Lower(text) + " ", joined);
    LowerConcat(Lower(text), " ");
  }

  /** The combined text is already lower-case. */
  lemma AllTextIsLower(text: string, detected: seq<string>)
    ensures Lower(AllText(text, detected)) == AllText(text, detected)
  {
    if detected != [] {
      LowerJoinOfLowered(detected);
      LowerTextSpace(text, Join(LowerAll(detected), " "));
    } else {
      LowerIdempotent(text);
    }
  }

  /** The combined text begins with the lowered text. */
  lemma AllTextHasText(text: string, detected: seq<string>)
    ensures Contains(AllText(text, detected), Lower(text))
  {
    var lowered := Lower(text);
    var rest: string := if detected == [] then [] else " " + Join(LowerAll(detected), " ");
    assert AllText(text, detected) == lowered + rest;
    assert (lowered + rest)[..|lowered|] == lowered;
    assert IsPrefix(lowered, AllText(text, detected));
  }

  /** A keyword occurring, case-insensitively, in the certificate text is detected. */
  lemma DetectionSeesText(text: string, detected: seq<string>, keys: seq<string>, j: nat)
    requires j < |keys| && Contains(Lower(text), Lower(keys[j]))
    ensures CheckKeywords(AllText(text, detected), keys)
  {
    AllTextIsLower(text, detected);
    AllTextHasText(text, detected);
    ContainsTrans(AllText(text, detected), Lower(text), Lower(keys[j]));
  }

  lemma DetectionSeesAny(text: string, detected: seq<string>, keys: seq<string>)
    ensures CheckKeywords(text, keys) ==> CheckKeywords(AllText(text, detected), keys)
  {
    if CheckKeywords(text, keys) {
      var j :| 0 <= j < |keys| && Contains(Lower(text), Lower(keys[j]));
      DetectionSeesText(text, detected, keys, j);
    }
  }

  /** A keyword occurring, case-insensitively, in one detected test name is detected. */
  lemma DetectionSeesEntry(text: string, detected: seq<string>, keys: seq<string>, j: nat, i: nat)
    requires j < |keys| && i < |detected| && Contains(Lower(detected[i]), Lower(keys[j]))
    ensures CheckKeywords(AllText(text, detected), keys)
  {
    AllTextIsLower(text, detected);
    var joined := Join(LowerAll(detected), " ");
    var all := AllText(text, detected);
    JoinContainsPart(LowerAll(detected), " ", i);
    ContainsTrans(joined, Lower(detected[i]), Lower(keys[j]));
    ContainsSelfConcat(Lower(text) + " ", joined, []);
    assert Lower(text) + " " + joined + [] == all;
    ContainsTrans(all, joined, Lower(keys[j]));
  }

  // ---------------------------------------------------------------- one certificate

  /** `TestCertificateInfo.validate`: the heat-release + gas-toxicity combination decides. */
  function Validated(c: CertificateInfo): (r: CertificateInfo)
    ensures r == c.(isValid := r.isValid, status := r.status, message := r.message)
    ensures r.isValid <==> r.status == Valid
    ensures r.status == Valid <==> c.hasHeatRelease && c.hasGasToxicity
    ensures r.status == ThermalOnly <==> c.hasThermalConductivity && !c.hasHeatRelease && !c.hasGasToxicity
    ensures r.status == MissingBoth <==> !c.hasThermalConductivity && !c.hasHeatRelease && !c.hasGasToxicity
    ensures r.status == MissingHeat <==> c.hasGasToxicity && !c.hasHeatRelease
    ensures r.status == MissingGas <==> c.hasHeatRelease && !c.hasGasToxicity
    ensures r.status != NotSubmitted && r.status != StoneException
  {
    if c.hasHeatRelease && c.hasGasToxicity then
      c.(isValid := true, status := Valid, message := "유효: 열방출시험 + 가스유해성시험 조합 충족")
    else if c.hasThermalConductivity && !c.hasHeatRelease && !c.hasGasToxicity then
      c.(isValid := false, status := ThermalOnly, message := "무효: 열전도율 시험만 있음 (열방출+가스유해성 필요)")
    else if !c.hasHeatRelease && !c.hasGasToxicity then
      c.(isValid := false, status := MissingBoth, message := "무효: 열방출시험, 가스유해성시험 둘 다 없음")
    else if !c.hasHeatRelease then
      c.(isValid := false, status := MissingHeat, message := "무효: 열방출시험 없음 (가스유해성만 있음)")
    else
      c.(isValid := false, status := MissingGas, message := "무효: 가스유해성시험 없음 (열방출만 있음)")
  }

  /** `ai_analysis.get(k, False) is True`, read only when the analysis is a non-empty dict. */
  predicate AiFlag(ai: Dict, k: string)
  {
    ai != map[] && IsTrue(Get(ai, k))
  }

  function NameOr(name: Option<string>): string
  {
    if name.Some? then name.value else ""
  }

  /** `validate_single_certificate` */
  function SingleCertificate(fileName: string, rawText: string, detected: seq<string>, materialName: Option<string>,
                             ai: Dict): (c: CertificateInfo)
    ensures c.fileName == fileName && c.materialName == NameOr(materialName) && c.detectedTests == detected
    ensures c.hasHeatRelease <==> AiFlag(ai, "has_heat_release_test") || DetectTestTypes(rawText, detected).0
    ensures c.hasGasToxicity <==> AiFlag(ai, "has_gas_toxicity_test") || DetectTestTypes(rawText, detected).1
    ensures c.hasThermalConductivity
      <==> AiFlag(ai, "has_thermal_conductivity_test") || DetectTestTypes(rawText, detected).2
    ensures c.isValid <==> c.hasHeatRelease && c.hasGasToxicity
  {
    var blank := CertificateInfo(fileName, NameOr(materialName), false, false, false, detected, false, NotSubmitted, "");
    var ai' := if ai != map[] then
        blank.(hasHeatRelease := IsTrue(Get(ai, "has_heat_release_test")),
               hasGasToxicity := IsTrue(Get(ai, "has_gas_toxicity_test")),
               hasThermalConductivity := IsTrue(Get(ai, "has_thermal_conductivity_test")))
      else blank;
    var t := DetectTestTypes(rawText, detected);
    Validated(ai'.(hasHeatRelease := ai'.hasHeatRelease || t.0,
                   hasGasToxicity := ai'.hasGasToxicity || t.1,
                   hasThermalConductivity := ai'.hasThermalConductivity || t.2))
  }

  /** A flag the AI reported true is never turned false by the text check. */
  lemma AiFlagsKept(fileName: string, rawText: string, detected: seq<string>, materialName: Option<string>, ai: Dict)
    requires AiFlag(ai, "has_heat_release_test") && AiFlag(ai, "has_gas_toxicity_test")
    ensures SingleCertificate(fileName, rawText, detected, materialName, ai).isValid
  {
  }

  // ---------------------------------------------------------------- required materials

  function TypeLabel(t: string): string
  {
    if t == "exterior_finish" then "외벽마감재료"
    else if t == "exterior_insulation" then "외벽단열재료"
    else if t == "piloti_finish" then "필로티마감재료"
    else if t == "piloti_insulation" then "필로티단열재료"
    else t
  }

  /** A material is required when its name is not blank and, for a piloti material, the building has pilotis. */
  predicate Selected(item: (string, string), hasPiloti: bool)
  {
    Strip(item.1) != [] && !(IsPrefix("piloti", item.0) && !hasPiloti)
  }

  function NewStatus(item: (string, string)): MaterialStatus
  {
    MaterialStatus(TypeLabel(item.0), Strip(item.1), false, false, false,
      item.0 == "exterior_finish" && IsStoneMaterial(item.1), true, [])
  }

  /** The required materials, in the drawing's order. */
  function RequiredMaterials(items: seq<(string, string)>, hasPiloti: bool): (ms: seq<MaterialStatus>)
    ensures |ms| <= |items|
  {
    if items == [] then []
    else
      var init := RequiredMaterials(items[..|items| - 1], hasPiloti);
      var last := items[|items| - 1];
      if Selected(last, hasPiloti) then init + [NewStatus(last)] else init
  }

  /** The material loop of `validate_all` builds the required materials. */
  method CollectRequiredMaterials(items: seq<(string, string)>, hasPiloti: bool) returns (required: seq<MaterialStatus>)
    ensures required == RequiredMaterials(items, hasPiloti)
  {
    required := [];
    for i := 0 to |items|
      invariant required == RequiredMaterials(items[..i], hasPiloti)
    {
      assert items[..i + 1][..i] == items[..i];
      if Selected(items[i], hasPiloti) {
        required := required + [NewStatus(items[i])];
      }
    }
    assert items[..|items|] == items;
  }

  /** Every selected item becomes a required material. */
  lemma {:induction false} SelectedIsRequired(items: seq<(string, string)>, hasPiloti: bool, i: nat)
    requires i < |items| && Selected(items[i], hasPiloti)
    ensures NewStatus(items[i]) in RequiredMaterials(items, hasPiloti)
  {
    var init := items[..|items| - 1];
    if i < |items| - 1 {
      assert init[i] == items[i];
      SelectedIsRequired(init, hasPiloti, i);
    }
  }

  /** Every required material comes from a selected item: blank names and piloti materials of a building without pilotis are skipped. */
  lemma {:induction false} RequiredIsSelected(items: seq<(string, string)>, hasPiloti: bool, k: nat)
    requires k < |RequiredMaterials(items, hasPiloti)|
    ensures exists i ::
      && 0 <= i < |items|
      && Selected(items[i], hasPiloti)
      && RequiredMaterials(items, hasPiloti)[k] == NewStatus(items[i])
  {
    var init := items[..|items| - 1];
    var last := items[|items| - 1];
    var ms := RequiredMaterials(items, hasPiloti);
    var prev := RequiredMaterials(init, hasPiloti);
    assert ms == if Selected(last, hasPiloti) then prev + [NewStatus(last)] else prev;
    if k < |prev| {
      RequiredIsSelected(init, hasPiloti, k);
      var i :| 0 <= i < |init| && Selected(init[i], hasPiloti) && prev[k] == NewStatus(init[i]);
      assert items[i] == init[i] && ms[k] == prev[k];
    } else {
      assert Selected(last, hasPiloti) && ms[k] == NewStatus(last);
    }
  }

  /** A required material's stone exception holds exactly for a stone exterior finish, and its name is never blank. */
  lemma StoneOnlyForExteriorFinish(item: (string, string))
    ensures NewStatus(item).isStoneException <==> item.0 == "exterior_finish" && IsStoneMaterial(item.1)
    ensures !IsStoneMaterial("")
  {
  }

  // ---------------------------------------------------------------- submitted certificates

  function CertificateOf(d: CertificateData): CertificateInfo
  {
    SingleCertificate(d.fileName, d.rawText, d.detectedTests, d.materialName, d.analysis)
  }

  function Certificates(certs: seq<CertificateData>): (cs: seq<CertificateInfo>)
    ensures |cs| == |certs|
    ensures forall i :: 0 <= i < |certs| ==> cs[i] == CertificateOf(certs[i])
  {
    seq(|certs|, i requires 0 <= i < |certs| => CertificateOf(certs[i]))
  }

  lemma CertificatesSnoc(certs: seq<CertificateData>, i: nat)
    requires i < |certs|
    ensures Certificates(certs[..i + 1]) == Certificates(certs[..i]) + [CertificateOf(certs[i])]
  {
    var a := Certificates(certs[..i + 1]);
    var b := Certificates(certs[..i]) + [CertificateOf(certs[i])];
    assert |a| == |b|;
    forall k | 0 <= k < |a|
      ensures a[k] == b[k]
    {
      assert certs[..i + 1][k] == certs[k];
      if k < i {
        assert certs[..i][k] == certs[k];
      }
    }
  }

  predicate AnyValid(cs: seq<CertificateInfo>)
  {
    exists i :: 0 <= i < |cs| && cs[i].isValid
  }

  lemma AnyValidSnoc(cs: seq<CertificateInfo>, c: CertificateInfo)
    ensures AnyValid(cs + [c]) <==> AnyValid(cs) || c.isValid
  {
    if AnyValid(cs) {
      var j :| 0 <= j < |cs| && cs[j].isValid;
      assert (cs + [c])[j] == cs[j];
    }
    assert (cs + [c])[|cs|] == c;
    if AnyValid(cs + [c]) && !c.isValid {
      var j :| 0 <= j < |cs + [c]| && (cs + [c])[j].isValid;
      assert cs[j] == (cs + [c])[j];
    }
  }

  /** The certificate loop of `validate_all`: every certificate validated, and whether any is valid. */
  method CheckCertificates(certs: seq<CertificateData>) returns (submitted: seq<CertificateInfo>, anyValid: bool)
    ensures submitted == Certificates(certs)
    ensures anyValid <==> AnyValid(submitted)
  {
    submitted := [];
    anyValid := false;
    for i := 0 to |certs|
      invariant submitted == Certificates(certs[..i])
      invariant anyValid <==> AnyValid(submitted)
    {
      CertificatesSnoc(certs, i);
      var cert := CertificateOf(certs[i]);
      AnyValidSnoc(submitted, cert);
      submitted := submitted + [cert];
      anyValid := anyValid || cert.isValid;
    }
    assert certs[..|certs|] == certs;
  }

  // ---------------------------------------------------------------- per-material check

  function Label(m: MaterialStatus): string
  {
    m.materialType + "(" + m.materialName + ")"
  }

  /** The reason given when certificates were submitted but none is valid, judged by the first. */
  function InvalidReason(m: MaterialStatus, first: CertificateInfo): string
  {
    Label(m) + " 시험성적서 무효 " +
      (match first.status
       case ThermalOnly => "(열전도율 시험만 있음 - 열방출+가스유해성 필요)"
       case MissingHeat => "(열방출시험 없음)"
       case MissingGas => "(가스유해성시험 없음)"
       case _ => "(열방출+가스유해성 조합 필요)")
  }

  function DeliveryReasons(m: MaterialStatus, deliverySubmitted: bool): seq<string>
  {
    if deliverySubmitted then [] else [Label(m) + " 납품확인서 미제출"]
  }

  /** Step 4 of `validate_all` for one material. */
  function Checked(m: MaterialStatus, submitted: seq<CertificateInfo>, anyValid: bool, deliverySubmitted: bool)
    : (r: MaterialStatus)
    ensures r.materialType == m.materialType && r.materialName == m.materialName
    ensures r.isStoneException == m.isStoneException
    ensures r.deliveryConfExists == deliverySubmitted
    ensures r.needsSupplement <==> r.supplementReasons != []
    ensures m.isStoneException || (submitted != [] && anyValid) ==>
      r.testCertValid && r.supplementReasons == DeliveryReasons(m, deliverySubmitted)
    ensures !m.isStoneException && submitted == [] ==>
      !r.testCertExists && r.supplementReasons == [Label(m) + " 시험성적서 미제출"] + DeliveryReasons(m, deliverySubmitted)
    ensures !m.isStoneException && submitted != [] && !anyValid ==>
      r.testCertExists && !r.testCertValid
      && r.supplementReasons == [InvalidReason(m, submitted[0])] + DeliveryReasons(m, deliverySubmitted)
  {
    var delivery := DeliveryReasons(m, deliverySubmitted);
    var base := m.(deliveryConfExists := deliverySubmitted);
    if m.isStoneException then
      base.(testCertExists := true, testCertValid := true, supplementReasons := delivery,
            needsSupplement := delivery != [])
    else if submitted == [] then
      base.(testCertExists := false, supplementReasons := [Label(m) + " 시험성적서 미제출"] + delivery,
            needsSupplement := true)
    else if !anyValid then
      base.(testCertExists := true, testCertValid := false,
            supplementReasons := [InvalidReason(m, submitted[0])] + delivery, needsSupplement := true)
    else
      base.(testCertExists := true, testCertValid := true, supplementReasons := delivery,
            needsSupplement := delivery != [])
  }

  function CheckedAll(ms: seq<MaterialStatus>, submitted: seq<CertificateInfo>, anyValid: bool,
                      deliverySubmitted: bool): (rs: seq<MaterialStatus>)
    ensures |rs| == |ms|
    ensures forall i :: 0 <= i < |ms| ==> rs[i] == Checked(ms[i], submitted, anyValid, deliverySubmitted)
  {
    if ms == [] then []
    else
      (CheckedAll(ms[..|ms| - 1], submitted, anyValid, deliverySubmitted)
       + [Checked(ms[|ms| - 1], submitted, anyValid, deliverySubmitted)])
  }

  /** The supplement reasons of the checked materials, concatenated in order. */
  function Reasons(rs: seq<MaterialStatus>): seq<string>
  {
    if rs == [] then [] else Reasons(rs[..|rs| - 1]) + rs[|rs| - 1].supplementReasons
  }

  /** Step 5: what is still demanded when the drawing yielded no material. */
  function NoMaterialItems(submitted: seq<CertificateInfo>, anyValid: bool, deliverySubmitted: bool): seq<string>
  {
    var cert :=
      if submitted == [] then ["시험성적서 미제출 (준공도면 자재 미확인)"]
      else if anyValid then []
      else if submitted[0].status == ThermalOnly then ["시험성적서 무효 (열전도율 시험만 있음 - 열방출+가스유해성 필요)"]
      else ["시험성적서 무효 (열방출+가스유해성 조합 필요)"];
    cert + (if deliverySubmitted then [] else ["납품확인서 미제출 (준공도면 자재 미확인)"])
  }

  /** The supplement items before de-duplication. */
  function RawItems(checked: seq<MaterialStatus>, submitted: seq<CertificateInfo>, anyValid: bool,
                    deliverySubmitted: bool): seq<string>
  {
    Reasons(checked) + (if checked == [] then NoMaterialItems(submitted, anyValid, deliverySubmitted) else [])
  }

  /** Steps 6 and 7: the verdict, the de-duplicated items and the summary. */
  function Concluded(checked: seq<MaterialStatus>, submitted: seq<CertificateInfo>, anyValid: bool,
                     deliverySubmitted: bool): ValidationResult
  {
    var items := RawItems(checked, submitted, anyValid, deliverySubmitted);
    if items == [] then
      ValidationResult(checked, submitted, anyValid, deliverySubmitted, [], true, "시험성적서/납품확인서 검증 통과")
    else
      ValidationResult(checked, submitted, anyValid, deliverySubmitted, Dedup(items), false,
        "보완 필요: " + Join(Dedup(items), "; "))
  }

  /** `validate_all` */
  function Validation(materials: seq<(string, string)>, certs: seq<CertificateData>, deliveryCount: nat,
                      hasPiloti: bool): ValidationResult
  {
    var submitted := Certificates(certs);
    Concluded(CheckedAll(RequiredMaterials(materials, hasPiloti), submitted, AnyValid(submitted), deliveryCount > 0),
      submitted, AnyValid(submitted), deliveryCount > 0)
  }

  lemma CheckedAllSnoc(ms: seq<MaterialStatus>, m: MaterialStatus, submitted: seq<CertificateInfo>, anyValid: bool,
                       deliverySubmitted: bool)
    ensures CheckedAll(ms + [m], submitted, anyValid, deliverySubmitted)
      == CheckedAll(ms, submitted, anyValid, deliverySubmitted) + [Checked(m, submitted, anyValid, deliverySubmitted)]
  {
    assert (ms + [m])[..|ms|] == ms;
  }

  lemma ReasonsSnoc(rs: seq<MaterialStatus>, r: MaterialStatus)
    ensures Reasons(rs + [r]) == Reasons(rs) + r.supplementReasons
  {
    assert (rs + [r])[..|rs|] == rs;
  }

  /** The per-material loop: each material checked in turn, its reasons appended to the items. */
  method CheckMaterials(required: seq<MaterialStatus>, submitted: seq<CertificateInfo>, anyValid: bool,
                        deliverySubmitted: bool) returns (checked: seq<MaterialStatus>, items: seq<string>)
    ensures checked == CheckedAll(required, submitted, anyValid, deliverySubmitted)
    ensures items == Reasons(checked)
  {
    checked := [];
    items := [];
    for i := 0 to |required|
      invariant checked == CheckedAll(required[..i], submitted, anyValid, deliverySubmitted)
      invariant items == Reasons(checked)
    {
      assert required[..i + 1] == required[..i] + [required[i]];
      CheckedAllSnoc(required[..i], required[i], submitted, anyValid, deliverySubmitted);
      var m := Checked(required[i], submitted, anyValid, deliverySubmitted);
      ReasonsSnoc(checked, m);
      checked := checked + [m];
      items := items + m.supplementReasons;
    }
    assert required[..|required|] == required;
  }

  /**
   * `TestCertificateValidator.validate_all`: materials (type, name) in the drawing's order, the
   * submitted certificates, the number of delivery confirmations and whether there are pilotis.
   */
  method ValidateAll(materials: seq<(string, string)>, certs: seq<CertificateData>, deliveryCount: nat,
                     hasPiloti: bool) returns (result: ValidationResult)
    ensures result == Validation(materials, certs, deliveryCount, hasPiloti)
  {
    var required := CollectRequiredMaterials(materials, hasPiloti);
    var submitted, anyValid := CheckCertificates(certs);
    var deliverySubmitted := deliveryCount > 0;
    var checked, items := CheckMaterials(required, submitted, anyValid, deliverySubmitted);
    if checked == [] {
      items := items + NoMaterialItems(submitted, anyValid, deliverySubmitted);
    }
    assert items == RawItems(checked, submitted, anyValid, deliverySubmitted);
    if items == [] {
      result := ValidationResult(checked, submitted, anyValid, deliverySubmitted, [], true,
        "시험성적서/납품확인서 검증 통과");
    } else {
      var unique := Dedup(items);
      result := ValidationResult(checked, submitted, anyValid, deliverySubmitted, unique, false,
        "보완 필요: " + Join(unique, "; "));
    }
  }

  // ---------------------------------------------------------------- laws

  /** No item is demanded exactly when no checked material has a reason. */
  lemma {:induction false} ReasonsEmptyIff(rs: seq<MaterialStatus>)
    ensures Reasons(rs) == [] <==> forall i :: 0 <= i < |rs| ==> rs[i].supplementReasons == []
  {
    if rs != [] {
      var init := rs[..|rs| - 1];
      ReasonsEmptyIff(init);
      assert forall i :: 0 <= i < |init| ==> init[i] == rs[i];
    }
  }

  /** The verdict passes exactly when no item remains; the items are the distinct raw items, each once. */
  lemma PassedIff(materials: seq<(string, string)>, certs: seq<CertificateData>, deliveryCount: nat, hasPiloti: bool)
    ensures var v := Validation(materials, certs, deliveryCount, hasPiloti);
      && (v.isPassed <==> v.supplementItems == [])
      && NoDuplicates(v.supplementItems)
      && forall x :: x in v.supplementItems <==>
        x in RawItems(v.requiredMaterials, v.submittedTestCerts, v.hasAnyValidTestCert, v.deliveryConfSubmitted)
  {
    var v := Validation(materials, certs, deliveryCount, hasPiloti);
    var items := RawItems(v.requiredMaterials, v.submittedTestCerts, v.hasAnyValidTestCert, v.deliveryConfSubmitted);
    DedupSpec(items);
    DedupEmptyIff(items);
  }

  /** Nothing passes without a delivery confirmation, stone materials included. */
  lemma PassedNeedsDelivery(materials: seq<(string, string)>, certs: seq<CertificateData>, hasPiloti: bool)
    ensures !Validation(materials, certs, 0, hasPiloti).isPassed
  {
    var submitted := Certificates(certs);
    var ms := RequiredMaterials(materials, hasPiloti);
    var checked := CheckedAll(ms, submitted, AnyValid(submitted), false);
    if ms != [] {
      ReasonsEmptyIff(checked);
      assert checked[0].supplementReasons != [];
    }
  }

  /** A valid certificate and a delivery confirmation satisfy every material: the check passes. */
  lemma ValidAndDeliveredPasses(materials: seq<(string, string)>, certs: seq<CertificateData>,
                                deliveryCount: nat, hasPiloti: bool, j: nat)
    requires j < |certs| && CertificateOf(certs[j]).isValid && deliveryCount > 0
    ensures Validation(materials, certs, deliveryCount, hasPiloti).isPassed
  {
    var submitted := Certificates(certs);
    assert submitted[j].isValid;
    var checked := CheckedAll(RequiredMaterials(materials, hasPiloti), submitted, true, true);
    ReasonsEmptyIff(checked);
  }

  /** Without a valid certificate, only a drawing whose every material is stone can pass. */
  lemma PassedNeedsValidOrStone(materials: seq<(string, string)>, certs: seq<CertificateData>,
                                deliveryCount: nat, hasPiloti: bool)
    requires Validation(materials, certs, deliveryCount, hasPiloti).isPassed
    ensures var v := Validation(materials, certs, deliveryCount, hasPiloti);
      || v.hasAnyValidTestCert
      || (&& v.requiredMaterials != []
          && forall i :: 0 <= i < |v.requiredMaterials| ==> v.requiredMaterials[i].isStoneException)
  {
    var submitted := Certificates(certs);
    var checked := CheckedAll(RequiredMaterials(materials, hasPiloti), submitted, AnyValid(submitted), deliveryCount > 0);
    ReasonsEmptyIff(checked);
  }
}
