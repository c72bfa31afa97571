/**
 * The second half of the unified analyser: turning the per-category documents into a
 * `PublicHousingReviewResult` (`_build_result`), the per-category field mappers
 * (`_apply_*`), the cross-document reconciliation (`_reconcile_result`) and the tail of
 * `analyze` (text-based corporation flag, owner-extractor top-up).
 *
 * The review record is a value; each mapper returns the record with its fields updated,
 * in the order the source assigns them. The text extractors that run regular
 * expressions over the page text and the dedicated owner extractor are not part of this
 * model: their results arrive as parameters.
 */
module UnifiedResult {
  import opened Wrappers
  import opened Text
  import opened Values
  import opened Dates
  import opened DataModels
  import DocTypes
  import Sorting
  import DualAnalysis
  import ApprovalDates
  import A = UnifiedPdfAnalyzer

  // ================================================================== value helpers

  /** `str(v).strip()` */
  function Text0(v: Value): string
  {
    Strip(DualAnalysis.Render(v))
  }

  /** `d.get(k, fallback)` */
  function GetOr(d: Dict, k: string, fallback: Value): (r: Value)
    ensures k in d ==> r == d[k]
    ensures k !in d ==> r == fallback
  {
    if k in d then d[k] else fallback
  }

  /** Python's `a or b` on values. */
  function Or(a: Value, b: Value): (r: Value)
    ensures Truthy(r) <==> Truthy(a) || Truthy(b)
  {
    if Truthy(a) then a else b
  }

  /** The value an optional string stands for: None or the string. */
  function OptValue(s: Option<string>): (r: Value)
    ensures Truthy(r) <==> NonEmpty(s)
  {
    if s.Some? then Str(s.value) else Null
  }

  /** `x = _get_first(data, *keys); if x: field = str(x).strip()` */
  function Picked(current: Option<string>, data: Dict, keys: seq<string>): (r: Option<string>)
    ensures !Truthy(A.GetFirst(data, keys)) ==> r == current
    ensures Truthy(A.GetFirst(data, keys)) ==> r == Some(Text0(A.GetFirst(data, keys)))
  {
    var v := A.GetFirst(data, keys);
    if Truthy(v) then Some(Text0(v)) else current
  }

  /** `if not v and isinstance(data.get(k), dict): v = _get_first(data[k], *keys)` */
  function OrNested(v: Value, data: Dict, k: string, keys: seq<string>): (r: Value)
    ensures Truthy(v) ==> r == v
  {
    if !Truthy(v) && k in data && data[k].Obj? then A.GetFirst(data[k].fields, keys) else v
  }

  /** The `exists` flag a document reports: `data.get("exists", True)`, read for truthiness. */
  predicate Reported(data: Dict)
  {
    Truthy(GetOr(data, "exists", Bool(true)))
  }

  /** The record-level `exists = ...; status = VALID` that opens every mapper. */
  function Opened(b: DocBase, present: bool): (r: DocBase)
    ensures r.present == present && r.status == Valid
    ensures r.issueDate == b.issueDate && r.issues == b.issues
  {
    b.(present := present, status := Valid)
  }

  /** `data.get(k1, data.get(k2, True)) is True if exists else False` */
  predicate AssumedTrue(data: Dict, present: bool, k1: string, k2: string)
  {
    present && IsTrue(GetOr(data, k1, GetOr(data, k2, Bool(true))))
  }

  /** `data.get(k1) if k1 in data else (data.get(k2) if k2 in data else True)`, only when the document exists. */
  predicate AllSubmitted(data: Dict, present: bool, k1: string, k2: string)
  {
    present && Truthy(if k1 in data then data[k1] else if k2 in data then data[k2] else Bool(true))
  }

  /** The truncation toward zero of `int(x)` on a float. */
  function Trunc(x: real): (n: int)
    ensures x >= 0.0 ==> n as real <= x < n as real + 1.0
    ensures x < 0.0 ==> n as real - 1.0 < x <= n as real
  {
    if x >= 0.0 then x.Floor else -((-x).Floor)
  }

  /** A decimal integer literal: an optional sign and at least one digit. */
  function IntLiteral(s: string): (r: Option<int>)
    ensures AllDigits(s) && s != [] ==> r == Some(NatOf(s))
  {
    if s != [] && (s[0] == '-' || s[0] == '+') then
      if |s| > 1 && AllDigits(s[1..]) then
        var n: int := NatOf(s[1..]);
        Some(if s[0] == '-' then -n else n)
      else None
    else if s != [] && AllDigits(s) then Some(NatOf(s))
    else None
  }

  /** `int(v)`, or None where Python raises. */
  function PyInt(v: Value): (r: Option<int>)
    ensures v.Int? ==> r == Some(v.i)
    ensures v == Null || v.Arr? || v.Obj? ==> r.None?
  {
    match v
    case Bool(b) => Some(if b then 1 else 0)
    case Int(i) => Some(i)
    case Num(x) => Some(Trunc(x))
    case Str(s) => IntLiteral(Strip(s))
    case _ => None
  }

  /** A count read into an integer field. */
  function CountOf(v: Value): Option<int>
  {
    if IsNumber(v) then Some(Trunc(AsReal(v))) else PyInt(v)
  }

  // ================================================================== 1. housing sale application

  const NameKeys: seq<string> :=
    ["owner_name", "name", "성명", "소유자", "소유주", "applicant_name", "신청인", "매도인", "성명(한글)", "상호"]
  const OwnerInfoNameKeys: seq<string> := ["name", "owner_name", "성명", "소유자", "소유주", "상호"]
  const ApplicantNameKeys: seq<string> := ["name", "성명", "상호"]
  const BirthKeys: seq<string> :=
    ["owner_birth", "birth_date", "생년월일", "birth", "resident_number", "주민번호", "주민등록번호"]
  const OwnerInfoBirthKeys: seq<string> := ["birth_date", "owner_birth", "생년월일", "birth"]
  const AddressKeys: seq<string> :=
    ["owner_address", "address", "주소", "현거주지", "home_address", "거주지", "현주소", "주소지"]
  const OwnerInfoAddressKeys: seq<string> := ["address", "owner_address", "주소", "현거주지"]
  const PhoneKeys: seq<string> :=
    ["owner_phone", "phone", "휴대전화", "연락처", "전화번호", "휴대폰", "mobile", "contact", "핸드폰", "휴대전화번호"]
  const OwnerInfoPhoneKeys: seq<string> := ["phone", "owner_phone", "휴대전화", "연락처", "전화번호"]
  const EmailKeys: seq<string> :=
    ["owner_email", "email", "이메일", "이메일주소", "email_address", "e-mail", "mail"]
  const OwnerInfoEmailKeys: seq<string> := ["email", "owner_email", "이메일", "이메일주소"]
  const PropertyKeys: seq<string> := ["property_address", "소재지", "주소", "물건소재지", "매도주택소재지"]
  const ApplicationAreaKeys: seq<string> := ["land_area", "대지면적", "면적", "토지면적"]
  const ApplicationApprovalKeys: seq<string> := ["approval_date", "사용승인일", "승인일", "건물사용승인일", "준공일"]
  const ApplicationWrittenKeys: seq<string> := ["written_date", "작성일", "issue_date", "작성일자", "신청일"]

  /** The name fragments that mark an owner who is not a private person. */
  const NonIndividualKeywords: seq<string> :=
    ["법인", "건설", "주식회사", "(주)", "주)", "㈜", "사단법인", "재단법인", "농협", "조합", "코퍼레이션", "corp", "inc"]

  /** The words that stand for a missing birth date or phone number. */
  const BlankWords: set<string> := {"null", "none", "-"}

  /**
   * What the regular-expression extractors find in the page text: the owner's name
   * (`_extract_owner_name_from_text`) and a corporation name
   * (`_extract_corporation_name_from_text`).
   */
  datatype TextFallback = TextFallback(ownerName: Option<string>, corporationName: Option<string>)

  /** The owner name candidate: the AI keys, `owner_info`, `applicant`, then the page text. */
  function NameCandidate(data: Dict, rawText: string, fb: TextFallback): (r: (Value, bool))
    ensures r.1 ==> NonEmpty(fb.corporationName) && r.0 == OptValue(fb.corporationName)
  {
    var n := OrNested(OrNested(A.GetFirst(data, NameKeys), data, "owner_info", OwnerInfoNameKeys),
      data, "applicant", ApplicantNameKeys);
    var n2 := if !Truthy(n) && rawText != [] then OptValue(fb.ownerName) else n;
    if !Truthy(n2) && rawText != [] && NonEmpty(fb.corporationName) then (OptValue(fb.corporationName), true)
    else (n2, false)
  }

  /** The text before the first '-' of `s` (`s.split("-")[0]`). */
  function BeforeDash(s: string): (r: string)
    ensures |r| <= |s| && r == s[..|r|] && '-' !in r
  {
    if s == [] || s[0] == '-' then [] else [s[0]] + BeforeDash(s[1..])
  }

  /** The birth date text: a resident number is cut to the six digits before its '-'. */
  function BirthText(v: Value): (r: string)
    ensures Contains(Text0(v), "-") && |Text0(v)| >= 6 ==> |r| <= 6 && '-' !in r
  {
    var s := Text0(v);
    if Contains(s, "-") && |s| >= 6 then
      var b := BeforeDash(s);
      if |b| <= 6 then b else b[..6]
    else s
  }

  /** The owner's phone as stored: a number starting 010, or any other non-blank text. */
  function PhoneText(current: Option<string>, v: Value): (r: Option<string>)
  {
    if !Truthy(v) then current else PhoneOf(current, Text0(v))
  }

  /** The phone rule on the trimmed text: a number starting 010, or any other non-blank text. */
  function PhoneOf(current: Option<string>, ps: string): (r: Option<string>)
  {
    var d := Digits(ps);
    if |d| >= 10 && IsPrefix("010", d) then Some(ps)
    else if ps != [] && Lower(ps) !in BlankWords then Some(ps)
    else current
  }

  /** `sum(bool(f) for f in owner fields)` */
  function FilledCount(o: OwnerInfo): (n: nat)
    ensures n <= 5
  {
    (if NonEmpty(o.name) then 1 else 0) + (if NonEmpty(o.birthDate) then 1 else 0)
    + (if NonEmpty(o.address) then 1 else 0) + (if NonEmpty(o.phone) then 1 else 0)
    + (if NonEmpty(o.email) then 1 else 0)
  }

  /** The owner fields `_apply_housing_application` fills in. */
  /** An owner field looked up by its keys, then under `owner_info`. */
  function OwnerValue(data: Dict, keys: seq<string>, nestedKeys: seq<string>): Value
  {
    OrNested(A.GetFirst(data, keys), data, "owner_info", nestedKeys)
  }

  /** The birth date as stored: the trimmed text, unless blank. */
  function BirthField(current: Option<string>, v: Value): (r: Option<string>)
    ensures r != current ==> Truthy(v) && r == Some(BirthText(v))
  {
    var bs := BirthText(v);
    if Truthy(v) && bs != [] && Lower(bs) !in BlankWords then Some(bs) else current
  }

  /** A text field: the trimmed value, unless empty. */
  function TextField(current: Option<string>, v: Value): (r: Option<string>)
    ensures r != current ==> Truthy(v) && r == Some(Text0(v))
  {
    if Truthy(v) && Text0(v) != [] then Some(Text0(v)) else current
  }

  /** The email as stored: only a text with an '@'. */
  function EmailField(current: Option<string>, v: Value): (r: Option<string>)
    ensures r != current ==> Contains(Text0(v), "@") && r == Some(Text0(v))
  {
    if Truthy(v) && Contains(Text0(v), "@") then Some(Text0(v)) else current
  }

  /** The completeness rule: three filled fields, or one on an existing application. */
  function Completed(o: OwnerInfo, present: bool): (r: OwnerInfo)
    ensures r.isComplete <==> FilledCount(r) >= 3 || (present && FilledCount(r) >= 1)
    ensures r.(isComplete := o.isComplete) == o
  {
    var n := FilledCount(o);
    o.(isComplete := n >= 3 || (present && n >= 1))
  }

  /** The owner fields `_apply_housing_application` fills in. */
  function OwnerFrom(o: OwnerInfo, data: Dict, name: Value, present: bool): (r: OwnerInfo)
    ensures r.isComplete <==> FilledCount(r) >= 3 || (present && FilledCount(r) >= 1)
    ensures r.name == TextField(o.name, name)
  {
    var bd := BirthField(o.birthDate, OwnerValue(data, BirthKeys, OwnerInfoBirthKeys));
    var ad := TextField(o.address, OwnerValue(data, AddressKeys, OwnerInfoAddressKeys));
    var ph := PhoneText(o.phone, OwnerValue(data, PhoneKeys, OwnerInfoPhoneKeys));
    var em := EmailField(o.email, OwnerValue(data, EmailKeys, OwnerInfoEmailKeys));
    Completed(OwnerInfo(TextField(o.name, name), bd, ad, ph, em, o.isComplete), present)
  }

  /** A trimmed owner name containing one of the non-individual keywords. */
  predicate NonIndividualName(name: Option<string>)
  {
    NonEmpty(name) && Strip(name.value) != [] && ContainsAny(Strip(name.value), NonIndividualKeywords)
  }

  /** The name found for the owner, when it is non-blank text. */
  predicate NameFound(name: Value)
  {
    Truthy(name) && Text0(name) != []
  }

  /** The application record's own fields, as the mapper sets them. */
  function ApplicationFrom(app: HousingSaleApplication, data: Dict, name: Value): (a: HousingSaleApplication)
    ensures a.base.present == Reported(data) && a.base.status == Valid
    ensures a.owner.name == TextField(app.owner.name, name)
    ensures a.owner.isComplete <==> FilledCount(a.owner) >= 3 || (Reported(data) && FilledCount(a.owner) >= 1)
    ensures Reported(data) ==> (a.seal.sealExists <==> !IsFalse(GetOr(data, "has_seal", Get(data, "seal"))))
    ensures !Reported(data) ==> a.seal == app.seal
    ensures Reported(data) ==> (a.agent.idCardMatch <==>
      !IsFalse(GetOr(data, "agent_id_card_match", Get(data, "agent_id_card_submitted"))))
    ensures !Reported(data) ==> a.agent == app.agent
  {
    var present := Reported(data);
    var area := A.ParseFloatValue(A.GetFirst(data, ApplicationAreaKeys));
    var seal := if present then app.seal.(sealExists := !IsFalse(GetOr(data, "has_seal", Get(data, "seal")))) else app.seal;
    var agent := if present
      then app.agent.(idCardMatch := !IsFalse(GetOr(data, "agent_id_card_match", Get(data, "agent_id_card_submitted"))))
      else app.agent;
    app.(base := Opened(app.base, present), owner := OwnerFrom(app.owner, data, name, present),
      landArea := if area.Some? then area else app.landArea,
      approvalDate := Picked(app.approvalDate, data, ApplicationApprovalKeys), seal := seal,
      writtenDate := Picked(app.writtenDate, data, ApplicationWrittenKeys), agent := agent)
  }

  /** The property address: the first one any document reports is kept. */
  function PropertyFrom(current: Option<string>, v: Value): (r: Option<string>)
    ensures NonEmpty(current) ==> r == current
  {
    if Truthy(v) && !NonEmpty(current) then Some(Text0(v)) else current
  }

  /** The applicant type: a non-individual owner name makes the applicant a corporation. */
  function ApplicantTypeFrom(r: ReviewResult): (r': ReviewResult)
    ensures r'.(applicantType := r.applicantType, applicantTypeDisplay := r.applicantTypeDisplay) == r
    ensures NonIndividualName(r.application.owner.name) ==> (r'.applicantType == Corporation
      && r'.applicantTypeDisplay == Some(Strip(r.application.owner.name.value)))
    ensures !NonIndividualName(r.application.owner.name) ==> r' == r
  {
    var name := r.application.owner.name;
    if NonIndividualName(name) then r.(applicantType := Corporation, applicantTypeDisplay := Some(Strip(name.value)))
    else r
  }

  /** `_apply_housing_application(result, data, raw_text)` */
  function HousingApplicationApplied(r: ReviewResult, data: Dict, rawText: string, fb: TextFallback): (r': ReviewResult)
    ensures r'.(application := r.application, corporate := r.corporate, propertyAddress := r.propertyAddress,
      applicantType := r.applicantType, applicantTypeDisplay := r.applicantTypeDisplay) == r
    ensures r'.corporate == r.corporate.(isCorporation := r'.corporate.isCorporation)
    ensures r'.application == ApplicationFrom(r.application, data, NameCandidate(data, rawText, fb).0)
    ensures r.corporate.isCorporation || IsTrue(Get(data, "is_corporation")) ==> r'.corporate.isCorporation
    ensures (NameFound(NameCandidate(data, rawText, fb).0)
      && A.DetectCorporationFromName(Text0(NameCandidate(data, rawText, fb).0))) ==> r'.corporate.isCorporation
    ensures NonIndividualName(r'.application.owner.name) ==> (r'.applicantType == Corporation
      && r'.applicantTypeDisplay == Some(Strip(r'.application.owner.name.value)))
    ensures NonEmpty(r.propertyAddress) ==> r'.propertyAddress == r.propertyAddress
  {
    var cand := NameCandidate(data, rawText, fb);
    var corp := IsTrue(Get(data, "is_corporation")) || r.corporate.isCorporation || cand.1
      || (NameFound(cand.0) && A.DetectCorporationFromName(Text0(cand.0)));
    ApplicantTypeFrom(r.(application := ApplicationFrom(r.application, data, cand.0),
      corporate := r.corporate.(isCorporation := corp),
      propertyAddress := PropertyFrom(r.propertyAddress, A.GetFirst(data, PropertyKeys))))
  }

  // ================================================================== 2. rental status, exclusive units

  /** `str(u.get("unit") or u.get("unit_number") or u.get("호") or "")` */
  function UnitNumber(u: Dict): (r: string)
    ensures !Truthy(Get(u, "unit")) && !Truthy(Get(u, "unit_number")) && !Truthy(Get(u, "호")) ==> r == []
  {
    var v := Or(Or(Get(u, "unit"), Get(u, "unit_number")), Get(u, "호"));
    if Truthy(v) then DualAnalysis.Render(v) else []
  }

  /** `_parse_float(u.get("area") or u.get("exclusive_area") or u.get("전용면적"))` */
  function UnitArea(u: Dict): Option<real>
  {
    A.ParseFloatValue(Or(Or(Get(u, "area"), Get(u, "exclusive_area")), Get(u, "전용면적")))
  }

  /** The entries of a unit list (a list entry that is not a dict contributes an empty one). */
  function UnitDicts(v: Value): (r: seq<Dict>)
    ensures v.Arr? ==> |r| == |v.items|
    ensures !v.Arr? ==> r == []
  {
    if v.Arr? then seq(|v.items|, i requires 0 <= i < |v.items| => if v.items[i].Obj? then v.items[i].fields else map[])
    else []
  }

  function RentalUnit(u: Dict): UnitInfo
  {
    UnitInfo(UnitNumber(u), UnitArea(u), false, Valid)
  }

  /** `ExclusiveUnit(unit_number=..., exclusive_area=_parse_float(...) or 0.0)` */
  function ExclusiveUnitOf(u: Dict): (e: ExclusiveUnit)
    ensures UnitArea(u).Some? ==> e.exclusiveArea == UnitArea(u).value
    ensures UnitArea(u).None? ==> e.exclusiveArea == 0.0
  {
    var a := UnitArea(u);
    ExclusiveUnit(UnitNumber(u), if a.Some? then a.value else 0.0, false, Valid)
  }

  /** `_apply_rental_status(result, data)` */
  function RentalStatusApplied(r: ReviewResult, data: Dict): (r': ReviewResult)
    ensures r'.(rentalStatus := r.rentalStatus) == r
    ensures r'.rentalStatus.base == Opened(r.rentalStatus.base, Reported(data))
    ensures r'.rentalStatus.mismatchedUnits == r.rentalStatus.mismatchedUnits
    ensures !Truthy(Get(data, "units")) ==> r'.rentalStatus.units == r.rentalStatus.units
    ensures Truthy(Get(data, "units")) ==> (|r'.rentalStatus.units| == |UnitDicts(Get(data, "units"))|
      && forall i :: 0 <= i < |r'.rentalStatus.units| ==>
        r'.rentalStatus.units[i].unitNumber == UnitNumber(UnitDicts(Get(data, "units"))[i])
        && r'.rentalStatus.units[i].exclusiveArea == UnitArea(UnitDicts(Get(data, "units"))[i]))
  {
    var units := Get(data, "units");
    var ds := UnitDicts(units);
    r.(rentalStatus := r.rentalStatus.(base := Opened(r.rentalStatus.base, Reported(data)),
      units := if Truthy(units) then seq(|ds|, i requires 0 <= i < |ds| => RentalUnit(ds[i])) else r.rentalStatus.units))
  }

  /** `_apply_building_ledger_exclusive(result, data)` */
  function ExclusiveApplied(r: ReviewResult, data: Dict): (r': ReviewResult)
    ensures r'.(ledgerExclusive := r.ledgerExclusive) == r
    ensures r'.ledgerExclusive.base == Opened(r.ledgerExclusive.base, Reported(data))
    ensures !Truthy(Get(data, "units")) ==> r'.ledgerExclusive.units == r.ledgerExclusive.units
    ensures Truthy(Get(data, "units")) ==> (|r'.ledgerExclusive.units| == |UnitDicts(Get(data, "units"))|
      && forall i :: 0 <= i < |r'.ledgerExclusive.units| ==>
        r'.ledgerExclusive.units[i] == ExclusiveUnitOf(UnitDicts(Get(data, "units"))[i]))
  {
    var units := Get(data, "units");
    var ds := UnitDicts(units);
    r.(ledgerExclusive := r.ledgerExclusive.(base := Opened(r.ledgerExclusive.base, Reported(data)),
      units := if Truthy(units) then seq(|ds|, i requires 0 <= i < |ds| => ExclusiveUnitOf(ds[i])) else r.ledgerExclusive.units))
  }

  // ================================================================== 3. power of attorney

  /** The power-of-attorney record as `_apply_power_of_attorney` fills it from `data`. */
  function PowerOfAttorneyRead(poa: PowerOfAttorney, data: Dict): (p': PowerOfAttorney)
    ensures p'.base == Opened(poa.base, Reported(data))
    ensures p'.delegator.sealValid <==> Truthy(GetOr(data, "delegator_seal", GetOr(data, "delegator_seal_valid", Bool(false))))
  {
    var dName := A.GetFirst(data, ["delegator_name", "위임인", "위임자"]);
    var dSeal := GetOr(data, "delegator_seal", GetOr(data, "delegator_seal_valid", Bool(false)));
    var eName := A.GetFirst(data, ["delegatee_name", "수임인", "수임자"]);
    var eSeal := GetOr(data, "delegatee_seal", GetOr(data, "delegatee_seal_valid", Bool(false)));
    var la := A.ParseFloatValue(A.GetFirst(data, ["land_area", "대지면적"]));
    poa.(base := Opened(poa.base, Reported(data)),
      delegator := poa.delegator.(personalInfoComplete := poa.delegator.personalInfoComplete || Truthy(dName),
        sealValid := Truthy(dSeal)),
      delegatee := poa.delegatee.(personalInfoComplete := poa.delegatee.personalInfoComplete || Truthy(eName),
        sealValid := Truthy(eSeal)),
      location := Picked(poa.location, data, ["property_address", "location", "소재지"]),
      landArea := if la.Some? then la else poa.landArea,
      writtenDate := Picked(poa.writtenDate, data, ["written_date", "작성일", "issue_date"]))
  }

  /** The agent as `_apply_power_of_attorney` fills it from `data`. */
  function AgentRead(agent: AgentInfo, data: Dict): (a': AgentInfo)
    ensures a'.present
    ensures a'.idCardMatch <==> !IsFalse(GetOr(data, "agent_id_card_match", Bool(true)))
    ensures Truthy(A.GetFirst(data, ["delegatee_name", "수임인", "수임자"])) ==>
      a'.agentType == IndividualAgent && a'.name == Some(Text0(A.GetFirst(data, ["delegatee_name", "수임인", "수임자"])))
  {
    var eName := A.GetFirst(data, ["delegatee_name", "수임인", "수임자"]);
    var a := agent.(present := true);
    var a1 := if Truthy(eName) then a.(name := Some(Text0(eName)), agentType := IndividualAgent) else a;
    a1.(idCardMatch := !IsFalse(GetOr(data, "agent_id_card_match", Bool(true))))
  }

  /** `_apply_power_of_attorney(result, data)` */
  function PowerOfAttorneyApplied(r: ReviewResult, data: Dict): (r': ReviewResult)
    ensures r'.(powerOfAttorney := r.powerOfAttorney, application := r.application) == r
    ensures r'.application == r.application.(agent := r'.application.agent)
    ensures r'.powerOfAttorney.base == Opened(r.powerOfAttorney.base, Reported(data))
    ensures r'.application.agent.present
    ensures r'.application.agent.idCardMatch <==> !IsFalse(GetOr(data, "agent_id_card_match", Bool(true)))
    ensures r'.powerOfAttorney.delegator.sealValid
      <==> Truthy(GetOr(data, "delegator_seal", GetOr(data, "delegator_seal_valid", Bool(false))))
    ensures Truthy(A.GetFirst(data, ["delegatee_name", "수임인", "수임자"])) ==>
      r'.application.agent.agentType == IndividualAgent
      && r'.application.agent.name == Some(Text0(A.GetFirst(data, ["delegatee_name", "수임인", "수임자"])))
  {
    r.(powerOfAttorney := PowerOfAttorneyRead(r.powerOfAttorney, data),
      application := r.application.(agent := AgentRead(r.application.agent, data)))
  }

  // ================================================================== 4. consent, pledge, LH staff

  /** `_apply_consent_form(result, data)` */
  function ConsentApplied(r: ReviewResult, data: Dict): (r': ReviewResult)
    ensures r'.(consent := r.consent) == r
    ensures r'.consent.base == Opened(r.consent.base, Reported(data))
    ensures !Reported(data) ==> (!r'.consent.ownerSigned && !r'.consent.ownerSealValid
      && !r'.consent.agentSigned && !r'.consent.agentSealValid)
    ensures Reported(data) && "owner_signed" !in data && "owner_seal" !in data ==> r'.consent.ownerSigned
    ensures r'.consent.ownerSigned ==> Reported(data)
    ensures r'.consent.ownerDateValid == r.consent.ownerDateValid && r'.consent.agentDateValid == r.consent.agentDateValid
  {
    var p := Reported(data);
    r.(consent := r.consent.(base := Opened(r.consent.base, p),
      ownerSigned := AssumedTrue(data, p, "owner_signed", "owner_seal"),
      ownerSealValid := AssumedTrue(data, p, "owner_seal_valid", "owner_seal"),
      agentSigned := AssumedTrue(data, p, "agent_signed", "agent_seal"),
      agentSealValid := AssumedTrue(data, p, "agent_seal_valid", "agent_seal"),
      ownerWrittenDate := Picked(r.consent.ownerWrittenDate, data, ["owner_written_date", "owner_date", "작성일"]),
      agentWrittenDate := Picked(r.consent.agentWrittenDate, data, ["agent_written_date", "agent_date"])))
  }

  /** `_apply_integrity_pledge(result, data)` */
  function PledgeApplied(r: ReviewResult, data: Dict): (r': ReviewResult)
    ensures r'.(pledge := r.pledge) == r
    ensures r'.pledge.base == Opened(r.pledge.base, Reported(data))
    ensures !Reported(data) ==> (!r'.pledge.ownerSubmitted && !r'.pledge.ownerSealValid && !r'.pledge.agentSubmitted
      && !r'.pledge.agentSealValid && !r'.pledge.realtorSubmitted && !r'.pledge.realtorSealValid)
    ensures r'.pledge.ownerIdNumberValid
      <==> !IsFalse(GetOr(data, "owner_id_number_valid", GetOr(data, "id_number_ok", Bool(true))))
    ensures r'.pledge.corporationIdTypeCorrect == r.pledge.corporationIdTypeCorrect
  {
    var p := Reported(data);
    r.(pledge := r.pledge.(base := Opened(r.pledge.base, p),
      ownerSubmitted := AssumedTrue(data, p, "owner_submitted", "owner_signed"),
      ownerSealValid := AssumedTrue(data, p, "owner_seal_valid", "has_seal"),
      ownerIdNumberValid := !IsFalse(GetOr(data, "owner_id_number_valid", GetOr(data, "id_number_ok", Bool(true)))),
      agentSubmitted := AssumedTrue(data, p, "agent_submitted", "agent_signed"),
      agentSealValid := AssumedTrue(data, p, "agent_seal_valid", "agent_seal"),
      realtorSubmitted := AssumedTrue(data, p, "realtor_submitted", "realtor_signed"),
      realtorSealValid := AssumedTrue(data, p, "realtor_seal_valid", "realtor_seal")))
  }

  /**
   * The tolerant owner-name comparison of the LH staff confirmation: equal, one inside
   * the other, or the same first two characters.
   */
  predicate NamesAgree(a: string, b: string)
  {
    a == b || Contains(b, a) || Contains(a, b) || (|a| >= 2 && |b| >= 2 && a[..2] == b[..2])
  }

  /** `_apply_lh_confirm(result, data)` */
  function LhConfirmApplied(r: ReviewResult, data: Dict): (r': ReviewResult)
    ensures r'.(lhConfirmation := r.lhConfirmation) == r
    ensures r'.lhConfirmation.base == Opened(r.lhConfirmation.base, Reported(data))
    ensures !r'.lhConfirmation.ownerNameMatch ==> (Truthy(A.GetFirst(data, ["owner_name", "name", "소유자"]))
      && NonEmpty(r.application.owner.name)
      && !NamesAgree(Text0(A.GetFirst(data, ["owner_name", "name", "소유자"])), Strip(r.application.owner.name.value)))
    ensures r'.lhConfirmation.sealValid <==> !IsFalse(GetOr(data, "has_seal", Get(data, "seal_valid")))
    ensures r'.lhConfirmation.dateValid == r.lhConfirmation.dateValid
  {
    var lhName := A.GetFirst(data, ["owner_name", "name", "소유자"]);
    var appName := r.application.owner.name;
    var nameMatch := if Truthy(lhName) && NonEmpty(appName) then NamesAgree(Text0(lhName), Strip(appName.value)) else true;
    r.(lhConfirmation := r.lhConfirmation.(base := Opened(r.lhConfirmation.base, Reported(data)),
      ownerNameMatch := nameMatch,
      sealValid := !IsFalse(GetOr(data, "has_seal", Get(data, "seal_valid"))),
      writtenDate := Picked(r.lhConfirmation.writtenDate, data, ["written_date", "작성일", "issue_date"])))
  }

  // ================================================================== 5. seal certificate, agent id, business registration

  /** Whether the certificate type names a corporate seal certificate. */
  predicate CorporateSeal(data: Dict)
  {
    Contains(DualAnalysis.Render(GetOr(data, "certificate_type", GetOr(data, "type", Str("")))), "법인")
  }

  /** `_apply_seal_certificate(result, data)` */
  function SealCertificateApplied(r: ReviewResult, data: Dict): (r': ReviewResult)
    ensures r'.(corporate := r.corporate, ownerIdentity := r.ownerIdentity, application := r.application) == r
    ensures CorporateSeal(data) ==> (r'.corporate.isCorporation
      && r'.corporate.corporateSealCertificate.present == Reported(data)
      && r'.ownerIdentity == r.ownerIdentity && r'.application == r.application)
    ensures !CorporateSeal(data) ==> (r'.corporate == r.corporate
      && r'.ownerIdentity.sealCertificate.present == Reported(data)
      && r'.ownerIdentity.sealCertificate.status == Valid
      && r'.application == r.application.(seal := r.application.seal.(certificateExists := true)))
  {
    var present := Reported(data);
    if CorporateSeal(data) then
      r.(corporate := r.corporate.(corporateSealCertificate := r.corporate.corporateSealCertificate.(present := present),
        isCorporation := true))
    else
      var issue := A.GetFirst(data, ["issue_date", "발급일", "작성일"]);
      var cert := r.ownerIdentity.sealCertificate.(present := present, status := Valid);
      var oi := if Truthy(issue)
        then r.ownerIdentity.(sealCertificate := cert.(issueDate := Some(Text0(issue))),
          sealCertificateIssueDate := Some(Text0(issue)))
        else r.ownerIdentity.(sealCertificate := cert);
      r.(ownerIdentity := oi,
        application := r.application.(seal := r.application.seal.(certificateExists := true)))
  }

  /** The AGENT_ID_CARD branch of `_build_result`. */
  function AgentIdCardApplied(r: ReviewResult, data: Dict): (r': ReviewResult)
    ensures r'.(application := r.application) == r
    ensures !Reported(data) ==> r' == r
    ensures Reported(data) ==> r'.application.agent.present && r'.application.agent.idCardMatch
  {
    if Reported(data) then r.(application := r.application.(agent := r.application.agent.(present := true, idCardMatch := true)))
    else r
  }

  /** The BUSINESS_REGISTRATION branch of `_build_result`. */
  function BusinessRegistrationApplied(r: ReviewResult, data: Dict): (r': ReviewResult)
    ensures r'.(corporate := r.corporate) == r
    ensures Reported(data) ==> r'.corporate.isCorporation && r'.corporate.businessRegistration.present
    ensures !Reported(data) ==> r' == r
  {
    if Reported(data) then
      r.(corporate := r.corporate.(businessRegistration := r.corporate.businessRegistration.(present := true),
        isCorporation := true))
    else r
  }

  // ================================================================== 6. building ledger

  /** The building count the summary ledger reports: at least one, two when unreadable. */
  function BuildingCount(current: int, data: Dict): (n: int)
    ensures GetOr(data, "building_count", GetOr(data, "동수", Int(2))) != Null ==> n >= 1
    ensures GetOr(data, "building_count", GetOr(data, "동수", Int(2))) == Null ==> n == current
  {
    var bc := GetOr(data, "building_count", GetOr(data, "동수", GetOr(data, "building_count", Int(2))));
    if bc == Null then current
    else
      var p := PyInt(bc);
      if p.Some? && p.value >= 1 then p.value else 2
  }

  /** `_apply_building_ledger_summary(result, data)` */
  function SummaryApplied(r: ReviewResult, data: Dict): (r': ReviewResult)
    ensures r'.(ledgerSummary := r.ledgerSummary) == r
    ensures r'.ledgerSummary.base == Opened(r.ledgerSummary.base, Reported(data))
    ensures r'.ledgerSummary.required
    ensures r.ledgerSummary.buildingCount >= 1 ==> r'.ledgerSummary.buildingCount >= 1
  {
    r.(ledgerSummary := r.ledgerSummary.(base := Opened(r.ledgerSummary.base, Reported(data)), required := true,
      buildingCount := BuildingCount(r.ledgerSummary.buildingCount, data)))
  }

  /** A flag stored from a JSON value: None stays None, anything else by truthiness. */
  function OptFlag(v: Value): (r: Option<bool>)
    ensures v == Null <==> r.None?
    ensures v.Bool? ==> r == Some(v.b)
  {
    if v == Null then None else Some(Truthy(v))
  }

  /** The basement fields: the floor count and whether it is positive; none reported means none. */
  function BasementOf(t: BuildingLedgerTitle, data: Dict): (r: BuildingLedgerTitle)
    ensures Get(data, "basement_floors") == Null ==> r.hasBasement == Some(false) && r.basementFloors == Some(0)
    ensures IsNumber(Get(data, "basement_floors")) ==>
      r.hasBasement == Some(AsReal(Get(data, "basement_floors")) > 0.0)
  {
    var v := Get(data, "basement_floors");
    if v == Null then t.(hasBasement := Some(false), basementFloors := Some(0))
    else if IsNumber(v) then t.(basementFloors := CountOf(v), hasBasement := Some(AsReal(v) > 0.0))
    else t
  }

  /** The elevator and parking counts: only truthy values are taken. */
  function CountsOf(t: BuildingLedgerTitle, data: Dict): (r: BuildingLedgerTitle)
    ensures !Truthy(Get(data, "elevator_count")) ==> r.hasElevator == t.hasElevator && r.elevatorCount == t.elevatorCount
  {
    var e := Get(data, "elevator_count");
    var t1 := if Truthy(e) && IsNumber(e) then t.(elevatorCount := CountOf(e), hasElevator := Some(AsReal(e) > 0.0)) else t;
    var pi := Get(data, "parking_indoor");
    var po := Get(data, "parking_outdoor");
    var pm := Get(data, "parking_mechanical");
    t1.(indoorParking := if Truthy(pi) then CountOf(pi) else t1.indoorParking,
      outdoorParking := if Truthy(po) then CountOf(po) else t1.outdoorParking,
      mechanicalParking := if Truthy(pm) then CountOf(pm) else t1.mechanicalParking)
  }

  /** `_apply_building_ledger_title(result, data)` */
  function TitleApplied(r: ReviewResult, data: Dict): (r': ReviewResult)
    ensures r'.(ledgerTitle := r.ledgerTitle, propertyAddress := r.propertyAddress) == r
    ensures r'.ledgerTitle.base == Opened(r.ledgerTitle.base, Reported(data))
    ensures r'.ledgerTitle.hasBasementUnits == Some(IsTrue(Get(data, "has_basement_units")))
    ensures "seismic_design" in data ==> r'.ledgerTitle.seismicDesign == OptFlag(data["seismic_design"])
    ensures "seismic_design" !in data ==> r'.ledgerTitle.seismicDesign == r.ledgerTitle.seismicDesign
    ensures NonEmpty(r.propertyAddress) ==> r'.propertyAddress == r.propertyAddress
    ensures "has_worker_living_facility" in data ==>
      r'.ledgerTitle.hasWorkerLivingFacility == Some(IsTrue(data["has_worker_living_facility"]))
  {
    var t := r.ledgerTitle.(base := Opened(r.ledgerTitle.base, Reported(data)),
      approvalDate := Picked(r.ledgerTitle.approvalDate, data, ["approval_date", "사용승인일", "승인일", "use_approval_date"]),
      seismicDesign := if "seismic_design" in data then OptFlag(data["seismic_design"]) else r.ledgerTitle.seismicDesign);
    var t1 := CountsOf(BasementOf(t, data), data).(hasBasementUnits := Some(IsTrue(Get(data, "has_basement_units"))));
    var loc := Get(data, "location");
    var worker :=
      if "has_worker_living_facility" in data then Some(IsTrue(data["has_worker_living_facility"]))
      else if A.GetFirst(data, ["근생", "근로자생활시설", "worker_living"]) != Null then Some(true)
      else t1.hasWorkerLivingFacility;
    r.(ledgerTitle := t1.(hasWorkerLivingFacility := worker),
      propertyAddress := if Truthy(loc) && !NonEmpty(r.propertyAddress) then Some(DualAnalysis.Render(loc)) else r.propertyAddress)
  }

  /** `_apply_building_layout(result, data)` */
  function LayoutApplied(r: ReviewResult, data: Dict): (r': ReviewResult)
    ensures r'.(layoutPlan := r.layoutPlan) == r
    ensures r'.layoutPlan.base == Opened(r.layoutPlan.base, Reported(data))
    ensures !Reported(data) ==> (!r'.layoutPlan.hasSitePlan && !r'.layoutPlan.hasAllFloorPlans
      && !r'.layoutPlan.hasUnitPlans && !r'.layoutPlan.isGovernmentIssued)
    ensures Reported(data) && "has_site_plan" !in data && "site_plan" !in data ==> r'.layoutPlan.hasSitePlan
  {
    var p := Reported(data);
    r.(layoutPlan := r.layoutPlan.(base := Opened(r.layoutPlan.base, p),
      hasSitePlan := AssumedTrue(data, p, "has_site_plan", "site_plan"),
      hasAllFloorPlans := AssumedTrue(data, p, "has_all_floor_plans", "floor_plans"),
      hasUnitPlans := AssumedTrue(data, p, "has_unit_plans", "unit_plans"),
      isGovernmentIssued := AssumedTrue(data, p, "is_government_issued", "government_issued")))
  }

  // ================================================================== 7. land and registries

  /** The strings of a restriction list, each stripped. */
  function Stripped(vs: seq<Value>): (r: seq<string>)
    ensures |r| == |vs|
    ensures forall i :: 0 <= i < |vs| ==> r[i] == Text0(vs[i])
  {
    seq(|vs|, i requires 0 <= i < |vs| => Text0(vs[i]))
  }

  /** The use restrictions the land ledger reports, or the current ones. */
  function RestrictionsOf(current: seq<string>, data: Dict): (r: seq<string>)
  {
    var v := GetOr(data, "use_restrictions", GetOr(data, "행위제한", GetOr(data, "regulations", Arr([]))));
    if v.Arr? && v.items != [] then Stripped(v.items)
    else if v.Str? && Strip(v.s) != [] then [Strip(v.s)]
    else current
  }

  /** `_apply_land_ledger(result, data)` */
  function LandLedgerApplied(r: ReviewResult, data: Dict): (r': ReviewResult)
    ensures r'.(landLedger := r.landLedger) == r
    ensures r'.landLedger.base.present == Reported(data) && r'.landLedger.base.status == Valid
    ensures r'.landLedger.allParcelsSubmitted ==> Reported(data)
    ensures Reported(data) && "all_parcels_submitted" !in data && "all_parcels" !in data ==> r'.landLedger.allParcelsSubmitted
    ensures A.ParseFloatValue(A.GetFirst(data, ["land_area", "면적", "대지면적"])).Some? ==>
      r'.landLedger.landArea == A.ParseFloatValue(A.GetFirst(data, ["land_area", "면적", "대지면적"]))
    ensures r'.landLedger.landAreaMatch == r.landLedger.landAreaMatch
  {
    var p := Reported(data);
    var la := A.ParseFloatValue(A.GetFirst(data, ["land_area", "면적", "대지면적"]));
    var base := Opened(r.landLedger.base, p);
    r.(landLedger := r.landLedger.(base := base.(issueDate := Picked(base.issueDate, data, ["issue_date", "발급일", "작성일"])),
      landArea := if la.Some? then la else r.landLedger.landArea,
      landCategory := Picked(r.landLedger.landCategory, data, ["land_category", "지목", "지목명"]),
      useRestrictions := RestrictionsOf(r.landLedger.useRestrictions, data),
      allParcelsSubmitted := AllSubmitted(data, p, "all_parcels_submitted", "all_parcels")))
  }

  /** A zone flag: set from the data when the key is present. */
  function ZoneFlag(current: bool, data: Dict, k: string): (r: bool)
    ensures k !in data ==> r == current
  {
    if k in data then Truthy(data[k]) else current
  }

  /** `_apply_land_use_plan(result, data)` */
  function LandUsePlanApplied(r: ReviewResult, data: Dict): (r': ReviewResult)
    ensures r'.(landUsePlan := r.landUsePlan) == r
    ensures r'.landUsePlan.base == Opened(r.landUsePlan.base, Reported(data))
    ensures r'.landUsePlan.allParcelsSubmitted ==> Reported(data)
    ensures "is_redevelopment_zone" !in data ==> r'.landUsePlan.isRedevelopmentZone == r.landUsePlan.isRedevelopmentZone
    ensures r'.landUsePlan.landAreaMatch == r.landUsePlan.landAreaMatch
  {
    var p := Reported(data);
    var la := A.ParseFloatValue(A.GetFirst(data, ["land_area", "면적", "대지면적"]));
    var u := r.landUsePlan;
    r.(landUsePlan := u.(base := Opened(u.base, p),
      landArea := if la.Some? then la else u.landArea,
      allParcelsSubmitted := AllSubmitted(data, p, "all_parcels_submitted", "all_parcels"),
      isRedevelopmentZone := ZoneFlag(u.isRedevelopmentZone, data, "is_redevelopment_zone"),
      isMaintenanceZone := ZoneFlag(u.isMaintenanceZone, data, "is_maintenance_zone"),
      isPublicHousingZone := ZoneFlag(u.isPublicHousingZone, data, "is_public_housing_zone"),
      isHousingDevelopmentZone := ZoneFlag(u.isHousingDevelopmentZone, data, "is_housing_development_zone")))
  }

  /** `_apply_building_registry(result, data)` */
  function BuildingRegistryApplied(r: ReviewResult, data: Dict): (r': ReviewResult)
    ensures r'.(buildingRegistry := r.buildingRegistry) == r
    ensures r'.buildingRegistry.base == Opened(r.buildingRegistry.base, Reported(data))
    ensures r'.buildingRegistry.allUnitsSubmitted ==> Reported(data)
    ensures "is_private_rental_stated" in data ==>
      r'.buildingRegistry.isPrivateRentalStated == Some(IsTrue(data["is_private_rental_stated"]))
    ensures "is_private_rental_stated" !in data && A.GetFirst(data, ["민간임대용", "민간임대", "private_rental"]) != Null ==>
      r'.buildingRegistry.isPrivateRentalStated == Some(true)
  {
    var p := Reported(data);
    var b := r.buildingRegistry;
    var priv :=
      if "is_private_rental_stated" in data then Some(IsTrue(data["is_private_rental_stated"]))
      else if A.GetFirst(data, ["민간임대용", "민간임대", "private_rental"]) != Null then Some(true)
      else b.isPrivateRentalStated;
    r.(buildingRegistry := b.(base := Opened(b.base, p),
      allUnitsSubmitted := AllSubmitted(data, p, "all_units_submitted", "all_units"),
      hasSeizure := ZoneFlag(b.hasSeizure, data, "has_seizure"),
      hasMortgage := ZoneFlag(b.hasMortgage, data, "has_mortgage"),
      hasTrust := ZoneFlag(b.hasTrust, data, "has_trust"),
      isPrivateRentalStated := priv))
  }

  /** `_apply_land_registry(result, data)` */
  function LandRegistryApplied(r: ReviewResult, data: Dict): (r': ReviewResult)
    ensures r'.(landRegistry := r.landRegistry) == r
    ensures r'.landRegistry.base == Opened(r.landRegistry.base, Reported(data))
    ensures r'.landRegistry.allParcelsSubmitted ==> Reported(data)
    ensures Reported(data) && "all_parcels_submitted" !in data && "all_parcels" !in data ==> r'.landRegistry.allParcelsSubmitted
  {
    var p := Reported(data);
    r.(landRegistry := r.landRegistry.(base := Opened(r.landRegistry.base, p),
      allParcelsSubmitted := AllSubmitted(data, p, "all_parcels_submitted", "all_parcels")))
  }

  // ================================================================== 8. drawings, test certificates, delivery

  /** A material field: replaced only by a real material name read from the drawing. */
  function MaterialField(current: Option<string>, data: Dict, keys: seq<string>): (r: Option<string>)
    ensures r != current ==> A.IsRealMaterial(A.GetFirst(data, keys)) && r == Some(Text0(A.GetFirst(data, keys)))
  {
    var v := A.GetFirst(data, keys);
    if Truthy(v) && A.IsRealMaterial(v) then Some(Text0(v)) else current
  }

  /** `_apply_as_built_drawing(result, data)` */
  function AsBuiltApplied(r: ReviewResult, data: Dict): (r': ReviewResult)
    ensures r'.(asBuilt := r.asBuilt) == r
    ensures r'.asBuilt.base == Opened(r.asBuilt.base, Reported(data))
    ensures NonEmpty(r'.asBuilt.exteriorFinishMaterial) || NonEmpty(r'.asBuilt.exteriorInsulationMaterial)
      || NonEmpty(r'.asBuilt.pilotiFinishMaterial) || NonEmpty(r'.asBuilt.pilotiInsulationMaterial)
      ==> r'.asBuilt.materialsExtracted
    ensures r'.asBuilt.exteriorFinishMaterial != r.asBuilt.exteriorFinishMaterial ==>
      A.IsRealMaterial(A.GetFirst(data, ["exterior_finish_material", "외벽마감", "외벽마감재료"]))
  {
    var d := r.asBuilt;
    var ef := MaterialField(d.exteriorFinishMaterial, data, ["exterior_finish_material", "외벽마감", "외벽마감재료"]);
    var ei := MaterialField(d.exteriorInsulationMaterial, data, ["exterior_insulation_material", "외벽단열", "외벽단열재료"]);
    var pf := MaterialField(d.pilotiFinishMaterial, data, ["piloti_finish_material", "필로티마감", "필로티마감재료"]);
    var pi := MaterialField(d.pilotiInsulationMaterial, data, ["piloti_insulation_material", "필로티단열", "필로티단열재료"]);
    var any := NonEmpty(ef) || NonEmpty(ei) || NonEmpty(pf) || NonEmpty(pi);
    r.(asBuilt := d.(base := Opened(d.base, Reported(data)),
      materialsExtracted := any || Truthy(GetOr(data, "materials_extracted", Bool(false))),
      exteriorFinishMaterial := ef, exteriorInsulationMaterial := ei,
      pilotiFinishMaterial := pf, pilotiInsulationMaterial := pi))
  }

  const HeatKeywords: seq<string> := [
    "열방출", "총열방출량", "열방출률", "열방출율", "열량방출",
    "thr", "total heat release", "heat release rate", "hrr",
    "발열량", "발열율", "열에너지",
    "cone calorimeter", "콘칼로리미터",
    "5660", "iso 5660", "ks f iso 5660"]

  const GasKeywords: seq<string> := [
    "가스유해성", "가스유해", "가스독성", "연소가스유해성", "연소가스",
    "gas toxicity", "gas toxic", "toxicity test",
    "유해가스", "유독가스", "연기독성", "연기유해성",
    "2271", "ks f 2271",
    "마우스", "mouse", "동물시험"]

  const ThermalKeywords: seq<string> := [
    "열전도율", "열전도", "열전도계수", "단열성능", "단열시험",
    "thermal conductivity", "k-value", "k값",
    "8302", "ks l iso 8302", "9016", "ks l 9016"]

  /** Some keyword, lower-cased, occurs in `text`. */
  predicate KeywordIn(text: string, keys: seq<string>)
  {
    exists i :: 0 <= i < |keys| && Contains(text, Lower(keys[i]))
  }

  /** The entries iterated by `for d in detected`: a list's items, or a string's characters. */
  function DetectedEntries(v: Value): (r: seq<string>)
    ensures v.Arr? ==> |r| == |v.items| && forall i :: 0 <= i < |r| ==> r[i] == DualAnalysis.Render(v.items[i])
  {
    if v.Arr? then seq(|v.items|, i requires 0 <= i < |v.items| => DualAnalysis.Render(v.items[i]))
    else if v.Str? then seq(|v.s|, i requires 0 <= i < |v.s| => [v.s[i]])
    else []
  }

  /** `" ".join(str(d).lower() for d in detected) if detected else ""` */
  function DetectedText(v: Value): string
  {
    if Truthy(v) then
      var es := DetectedEntries(v);
      Join(seq(|es|, i requires 0 <= i < |es| => Lower(es[i])), " ")
    else []
  }

  /** The stripped names of a list's truthy, non-blank entries, in order. */
  function NamesOf(items: seq<Value>): (r: seq<string>)
    ensures forall i :: 0 <= i < |r| ==> r[i] != []
  {
    if items == [] then []
    else
      var m := items[|items| - 1];
      NamesOf(items[..|items| - 1]) + (if Truthy(m) && Text0(m) != [] then [Text0(m)] else [])
  }

  /** The material names a certificate contributes: every entry of a list, or the one value. */
  function MaterialCandidates(mat: Value): (r: seq<string>)
    ensures forall i :: 0 <= i < |r| ==> r[i] != []
  {
    if mat == Null then []
    else if mat.Arr? then NamesOf(mat.items)
    else if Text0(mat) != [] then [Text0(mat)]
    else []
  }

  /** `data.get("material_name") or data.get("대상자재") or data.get("자재명")` */
  function MaterialValue(data: Dict): Value
  {
    Or(Or(Get(data, "material_name"), Get(data, "대상자재")), Get(data, "자재명"))
  }

  /** `xs` with each name of `names` appended unless it is already there. */
  function AppendNew(xs: seq<string>, names: seq<string>): (r: seq<string>)
    ensures |r| >= |xs| && r[..|xs|] == xs
    ensures forall x :: x in r <==> x in xs || x in names
  {
    if names == [] then xs
    else
      var p := AppendNew(xs, names[..|names| - 1]);
      var n := names[|names| - 1];
      assert forall x :: x in names <==> x in names[..|names| - 1] || x == n by {
        assert names == names[..|names| - 1] + [n];
      }
      if n in p then p else p + [n]
  }

  /** The test results read from the certificate: the AI flag or a keyword in the detected tests. */
  predicate TestFlag(data: Dict, k1: string, k2: string, keys: seq<string>)
  {
    IsTrue(GetOr(data, k1, GetOr(data, k2, Bool(false))))
    || KeywordIn(DetectedText(GetOr(data, "detected_tests", Arr([]))), keys)
  }

  /** The certificate record after a test-certificate document. */
  function CertificateRead(t: TestCertificateDelivery, data: Dict): (t': TestCertificateDelivery)
    ensures t'.base.present && t'.base.status == Valid && t'.testCertFileExists
    ensures t'.hasHeatReleaseTest == TestFlag(data, "has_heat_release_test", "열방출", HeatKeywords)
    ensures t'.hasGasToxicityTest == TestFlag(data, "has_gas_toxicity_test", "가스유해성", GasKeywords)
    ensures t'.hasThermalConductivityTest == TestFlag(data, "has_thermal_conductivity_test", "열전도율", ThermalKeywords)
    ensures t.hasDeliveryConfirmation ==> t'.hasDeliveryConfirmation
    ensures t'.materialsWithTestCert == AppendNew(t.materialsWithTestCert, MaterialCandidates(MaterialValue(data)))
    ensures t'.materialsWithDeliveryConf == t.materialsWithDeliveryConf
    ensures t'.stoneExteriorException == t.stoneExteriorException && t'.deliveryConfFileExists == t.deliveryConfFileExists
  {
    var detected := GetOr(data, "detected_tests", Arr([]));
    t.(base := Opened(t.base, true), testCertFileExists := true,
      detectedTests := if Truthy(detected) && detected.Arr? then DetectedEntries(detected) else t.detectedTests,
      hasHeatReleaseTest := TestFlag(data, "has_heat_release_test", "열방출", HeatKeywords),
      hasGasToxicityTest := TestFlag(data, "has_gas_toxicity_test", "가스유해성", GasKeywords),
      hasThermalConductivityTest := TestFlag(data, "has_thermal_conductivity_test", "열전도율", ThermalKeywords),
      hasDeliveryConfirmation := t.hasDeliveryConfirmation || IsTrue(GetOr(data, "has_delivery_confirmation", Bool(false))),
      materialsWithTestCert := AppendNew(t.materialsWithTestCert, MaterialCandidates(MaterialValue(data))))
  }

  /** `_apply_test_certificate(result, data)` */
  function TestCertificateApplied(r: ReviewResult, data: Dict): (r': ReviewResult)
    ensures r'.(testCert := r.testCert) == r
    ensures r'.testCert == CertificateRead(r.testCert, data)
  {
    r.(testCert := CertificateRead(r.testCert, data))
  }

  /** The certificate record after a delivery-confirmation document. */
  function DeliveryRead(t: TestCertificateDelivery, data: Dict): (t': TestCertificateDelivery)
    ensures t'.base.present && t'.deliveryConfFileExists
    ensures t'.hasDeliveryConfirmation
      <==> IsTrue(GetOr(data, "exists", GetOr(data, "has_delivery_confirmation", Bool(true))))
    ensures t'.materialsWithDeliveryConf == AppendNew(t.materialsWithDeliveryConf, MaterialCandidates(MaterialValue(data)))
    ensures t'.materialsWithTestCert == t.materialsWithTestCert
    ensures t'.hasHeatReleaseTest == t.hasHeatReleaseTest && t'.hasGasToxicityTest == t.hasGasToxicityTest
      && t'.hasThermalConductivityTest == t.hasThermalConductivityTest
  {
    t.(base := Opened(t.base, true), deliveryConfFileExists := true,
      hasDeliveryConfirmation := IsTrue(GetOr(data, "exists", GetOr(data, "has_delivery_confirmation", Bool(true)))),
      materialsWithDeliveryConf := AppendNew(t.materialsWithDeliveryConf, MaterialCandidates(MaterialValue(data))))
  }

  /** `_apply_delivery_confirmation(result, data)` */
  function DeliveryConfirmationApplied(r: ReviewResult, data: Dict): (r': ReviewResult)
    ensures r'.(testCert := r.testCert) == r
    ensures r'.testCert == DeliveryRead(r.testCert, data)
  {
    r.(testCert := DeliveryRead(r.testCert, data))
  }

  /** Appending one more name appends it exactly when it is new. */
  lemma AppendNewSnoc(xs: seq<string>, names: seq<string>, n: string)
    ensures AppendNew(xs, names + [n])
      == if n in AppendNew(xs, names) then AppendNew(xs, names) else AppendNew(xs, names) + [n]
  {
    assert (names + [n])[..|names|] == names;
  }

  /** The loop over a list of material names. */
  method AppendNames(existing: seq<string>, items: seq<Value>) returns (materials: seq<string>)
    ensures materials == AppendNew(existing, NamesOf(items))
  {
    materials := existing;
    for i := 0 to |items|
      invariant materials == AppendNew(existing, NamesOf(items[..i]))
    {
      var m := items[i];
      assert items[..i + 1][..i] == items[..i];
      assert NamesOf(items[..i + 1]) == NamesOf(items[..i]) + (if Truthy(m) && Text0(m) != [] then [Text0(m)] else []);
      if Truthy(m) && Text0(m) != [] {
        AppendNewSnoc(existing, NamesOf(items[..i]), Text0(m));
        if Text0(m) !in materials {
          materials := materials + [Text0(m)];
        }
      } else {
        assert NamesOf(items[..i]) + [] == NamesOf(items[..i]);
      }
    }
    assert items[..|items|] == items;
  }

  /** The material-list step of the two certificate mappers, proved to append exactly the new names. */
  method AppendMaterials(existing: seq<string>, mat: Value) returns (materials: seq<string>)
    ensures materials == AppendNew(existing, MaterialCandidates(mat))
  {
    materials := existing;
    if mat == Null {
      return;
    }
    if mat.Arr? {
      materials := AppendNames(existing, mat.items);
    } else {
      var s := Text0(mat);
      if s != [] {
        AppendNewSnoc(existing, [], s);
        assert [] + [s] == [s];
        if s !in materials {
          materials := materials + [s];
        }
      }
    }
  }

  // ================================================================== _build_result

  /** The data a document hands to its mapper: its dict, a list's first dict, or `{}`. */
  function DataOf(d: A.DocumentInfo): (data: Dict)
    ensures d.mergedData.Obj? ==> data == d.mergedData.fields
    ensures !d.mergedData.Obj? && !d.mergedData.Arr? ==> data == map[]
  {
    var raw := A.RawDict(d.mergedData);
    if raw.Some? then raw.value else map[]
  }

  /** The mapper of one document, by category (ID cards, realtor registrations and unknown pages map nothing). */
  function DocumentApplied(r: ReviewResult, d: A.DocumentInfo, rawText: string, fb: TextFallback): ReviewResult
  {
    var data := DataOf(d);
    match d.docType
    case HousingSaleApplication => HousingApplicationApplied(r, data, rawText, fb)
    case RentalStatus => RentalStatusApplied(r, data)
    case PowerOfAttorney => PowerOfAttorneyApplied(r, data)
    case ConsentForm => ConsentApplied(r, data)
    case IntegrityPledge => PledgeApplied(r, data)
    case LhEmployeeConfirm => LhConfirmApplied(r, data)
    case SealCertificate => SealCertificateApplied(r, data)
    case BuildingLedgerTitle => TitleApplied(r, data)
    case BuildingLedgerSummary => SummaryApplied(r, data)
    case BuildingLedgerExclusive => ExclusiveApplied(r, data)
    case BuildingLayout => LayoutApplied(r, data)
    case LandLedger => LandLedgerApplied(r, data)
    case LandUsePlan => LandUsePlanApplied(r, data)
    case BuildingRegistry => BuildingRegistryApplied(r, data)
    case LandRegistry => LandRegistryApplied(r, data)
    case AgentIdCard => AgentIdCardApplied(r, data)
    case BusinessRegistration => BusinessRegistrationApplied(r, data)
    case AsBuiltDrawing => AsBuiltApplied(r, data)
    case TestCertificate => TestCertificateApplied(r, data)
    case DeliveryConfirmation => DeliveryConfirmationApplied(r, data)
    case IdCard => r
    case RealtorRegistration => r
    case Unknown => r
  }

  /** The documents' mappers applied in order. */
  function AllApplied(r: ReviewResult, docs: seq<A.DocumentInfo>, rawText: string, fb: TextFallback): ReviewResult
  {
    if docs == [] then r
    else DocumentApplied(AllApplied(r, docs[..|docs| - 1], rawText, fb), docs[|docs| - 1], rawText, fb)
  }

  /** The sort key of `_build_result`: the housing application first, the rest by member name. */
  function DocRank(d: A.DocumentInfo): int
  {
    DocTypes.Rank(d.docType)
  }

  /** `sorted(documents, key=...)` */
  function Ordered(documents: seq<A.DocumentInfo>): seq<A.DocumentInfo>
  {
    Sorting.SortBy(documents, DocRank)
  }

  /** The record `_build_result` returns. */
  function Built(documents: seq<A.DocumentInfo>, announcementDate: string, reviewDate: string,
                 rawText: string, fb: TextFallback): ReviewResult
  {
    var start := NewReviewResult(reviewDate, Some(announcementDate));
    Reconciled(AllApplied(start, Ordered(documents), rawText, fb), announcementDate)
  }

  /** `_build_result(documents, announcement_date, raw_pdf_text)`, the review date given. */
  method BuildResult(documents: seq<A.DocumentInfo>, announcementDate: string, reviewDate: string,
                     rawText: string, fb: TextFallback) returns (result: ReviewResult)
    ensures result == Built(documents, announcementDate, reviewDate, rawText, fb)
  {
    var start := NewReviewResult(reviewDate, Some(announcementDate));
    result := start;
    var ordered := Ordered(documents);
    for i := 0 to |ordered|
      invariant result == AllApplied(start, ordered[..i], rawText, fb)
    {
      assert ordered[..i + 1][..i] == ordered[..i];
      result := DocumentApplied(result, ordered[i], rawText, fb);
    }
    assert ordered[..|ordered|] == ordered;
    result := Reconcile(result, announcementDate);
  }

  // ================================================================== _reconcile_result

  function Abs(x: real): real { if x < 0.0 then -x else x }

  /** The present values among `xs`, in order. */
  function Present(xs: seq<Option<real>>): (r: seq<real>)
    ensures |r| <= |xs|
  {
    if xs == [] then []
    else Present(xs[..|xs| - 1]) + (if xs[|xs| - 1].Some? then [xs[|xs| - 1].value] else [])
  }

  /** At least two values, all within `tol` of the first. */
  predicate Agree(vals: seq<real>, tol: real)
  {
    |vals| >= 2 && forall i :: 0 <= i < |vals| ==> Abs(vals[0] - vals[i]) <= tol
  }

  /** The three land areas of the application, the land ledger and the land-use plan agree. */
  predicate LandAreasAgree(r: ReviewResult)
  {
    Agree(Present([r.application.landArea, r.landLedger.landArea, r.landUsePlan.landArea]), 0.1)
  }

  /** The land-area step: matching areas set the flags of the contributing records. */
  function LandAreasReconciled(r: ReviewResult): (r': ReviewResult)
    ensures r'.(application := r.application, landLedger := r.landLedger, landUsePlan := r.landUsePlan) == r
    ensures r'.application == r.application.(landAreaMatch := r'.application.landAreaMatch)
    ensures r'.application.landAreaMatch <==> r.application.landAreaMatch || LandAreasAgree(r)
    ensures r.landLedger.landAreaMatch ==> r'.landLedger.landAreaMatch
    ensures r.landUsePlan.landAreaMatch ==> r'.landUsePlan.landAreaMatch
  {
    if LandAreasAgree(r) then
      r.(application := r.application.(landAreaMatch := true),
        landLedger := r.landLedger.(landAreaMatch := r.landLedger.landAreaMatch || r.landLedger.landArea.Some?),
        landUsePlan := r.landUsePlan.(landAreaMatch := r.landUsePlan.landAreaMatch || r.landUsePlan.landArea.Some?))
    else r
  }

  /** `_norm_date(s)`: the digits as YYYYMMDD, a six- or seven-digit run widened with "20". */
  function NormDate(s: string): (r: string)
    ensures |r| <= 8 && AllDigits(r)
    ensures |Digits(s)| >= 6 <==> |r| == 8
  {
    if s == [] then []
    else
      var d := Digits(s);
      var w := if |d| == 6 then "20" + d else if |d| == 7 then "20" + d[1..] else d;
      if |w| <= 8 then w else w[..8]
  }

  /** The formats `_parse_to_ymd` tries first. */
  const YmdFormats: seq<Format> := [FmtDash, FmtDot, FmtSlash, FmtDotSpaced, FmtKoreanSpaced, FmtKorean]

  /** `s.strip()[:24]` */
  function Head24(s: string): string
  {
    var t := Strip(s);
    t[..if |t| < 24 then |t| else 24]
  }

  /** The attempts of `_parse_to_ymd` after the formats: the separator pattern, then the digits. */
  function ScanOrDigits(s: string): (r: Option<Date>)
    ensures |Digits(s)| >= 6 ==> r.Some?
  {
    var m := ApprovalDates.ScanYmd(s, {'년', '.', '/', '-'}, {'월', '.', '/', '-'}, None);
    if m.Some? then m
    else
      var nd := NormDate(s);
      if |nd| >= 8 then Some(Date(NatOf(nd[..4]), NatOf(nd[4..6]), NatOf(nd[6..8]))) else None
  }

  /** `_parse_to_ymd(s)`: a format, then the separator pattern, then the digits. */
  function ParseToYmd(s: string): (r: Option<Date>)
    ensures s == [] ==> r.None?
    ensures s != [] && |Digits(s)| >= 6 ==> r.Some?
  {
    if s == [] then None
    else
      var p := FirstParse(Head24(s), YmdFormats);
      if p.Some? then p else ScanOrDigits(s)
  }

  /** The approval-date comparison between the application and the building ledger's title part. */
  function ApprovalDatesMatch(app: string, title: string): (r: bool)
    ensures app == [] || title == [] ==> r
    ensures !r ==> app != [] && title != [] && ParseToYmd(app).Some? && ParseToYmd(title).Some?
    ensures !r ==>
      (ParseToYmd(app).value.year, ParseToYmd(app).value.month)
      != (ParseToYmd(title).value.year, ParseToYmd(title).value.month)
    ensures !r ==> NormDate(app) != NormDate(title)
    ensures !r <==>
      app != [] && title != [] && ParseToYmd(app).Some? && ParseToYmd(title).Some?
      && (ParseToYmd(app).value.year, ParseToYmd(app).value.month)
         != (ParseToYmd(title).value.year, ParseToYmd(title).value.month)
      && Head6(NormDate(app)) != Head6(NormDate(title))
  {
    if app == [] || title == [] then true
    else
      var a := ParseToYmd(app);
      var t := ParseToYmd(title);
      if a.None? || t.None? then true
      else if a == t then true
      else if a.value.year == t.value.year && a.value.month == t.value.month then true
      else
        var na := NormDate(app);
        var nt := NormDate(title);
        if na == nt then true
        else Head6(na) == Head6(nt)
  }

  /** `s[:6]`: the year and month digits of a normalised date. */
  function Head6(s: string): (r: string)
    ensures |r| <= 6 && r <= s
  {
    s[..if |s| < 6 then |s| else 6]
  }

  /** The stripped text of an optional date (`(x or "").strip()`). */
  function OrEmpty(s: Option<string>): string
  {
    if s.Some? then Strip(s.value) else []
  }

  /** `strptime(s.strip()[:10], fmt)` for the first of the dash, dot and slash formats that parses. */
  function Date10(s: string): Option<Date>
  {
    var t := Strip(s);
    FirstParse(t[..if |t| < 10 then |t| else 10], [FmtDash, FmtDot, FmtSlash])
  }

  /** On or after the announcement date. */
  predicate OnOrAfter(d: Date, ann: Date) { !Before(d, ann) }

  /** The power-of-attorney step: its land area against the application's, its date against the announcement. */
  function PowerOfAttorneyReconciled(r: ReviewResult, ann: Option<Date>): (r': ReviewResult)
    ensures r'.(powerOfAttorney := r.powerOfAttorney) == r
    ensures r.powerOfAttorney.landAreaMatch ==> r'.powerOfAttorney.landAreaMatch
    ensures r.powerOfAttorney.isAfterAnnouncement ==> r'.powerOfAttorney.isAfterAnnouncement
  {
    var poa := r.powerOfAttorney;
    var la := r.application.landArea;
    var areaOk := poa.base.present && la.Some? && poa.landArea.Some? && Abs(poa.landArea.value - la.value) <= 0.01;
    var d := if NonEmpty(poa.writtenDate) then Date10(poa.writtenDate.value) else None;
    var after := poa.base.present && ann.Some? && d.Some? && OnOrAfter(d.value, ann.value);
    r.(powerOfAttorney := poa.(landAreaMatch := poa.landAreaMatch || areaOk,
      isAfterAnnouncement := poa.isAfterAnnouncement || after))
  }

  /** One consent date: valid unless it parses to a day before the announcement. */
  function ConsentDateValid(date: Option<string>, ann: Option<Date>): (b: bool)
    ensures !b <==> NonEmpty(date) && ann.Some? && Date10(date.value).Some? && Before(Date10(date.value).value, ann.value)
  {
    if NonEmpty(date) then
      var d := Date10(date.value);
      if d.Some? then (ann.None? || OnOrAfter(d.value, ann.value)) else true
    else true
  }

  function ConsentReconciled(r: ReviewResult, ann: Option<Date>): (r': ReviewResult)
    ensures r'.(consent := r.consent) == r
    ensures !r.consent.base.present ==> r' == r
  {
    if r.consent.base.present then
      r.(consent := r.consent.(ownerDateValid := ConsentDateValid(r.consent.ownerWrittenDate, ann),
        agentDateValid := ConsentDateValid(r.consent.agentWrittenDate, ann)))
    else r
  }

  /** A date check that only decides when the announcement and the date both parse. */
  function DatedAgainst(current: bool, present: bool, date: Option<string>, ann: Option<Date>): (b: bool)
    ensures b != current ==> (ann.Some? && present && NonEmpty(date) && Date10(date.value).Some?
      && (b <==> OnOrAfter(Date10(date.value).value, ann.value)))
  {
    if ann.Some? && present && NonEmpty(date) then
      var d := Date10(date.value);
      if d.Some? then OnOrAfter(d.value, ann.value) else current
    else current
  }

  function LhReconciled(r: ReviewResult, ann: Option<Date>): (r': ReviewResult)
    ensures r'.(lhConfirmation := r.lhConfirmation) == r
  {
    var lh := r.lhConfirmation;
    r.(lhConfirmation := lh.(dateValid := DatedAgainst(lh.dateValid, lh.base.present, lh.writtenDate, ann)))
  }

  function LandLedgerReconciled(r: ReviewResult, ann: Option<Date>): (r': ReviewResult)
    ensures r'.(landLedger := r.landLedger) == r
  {
    var l := r.landLedger;
    r.(landLedger := l.(isAfterAnnouncement := DatedAgainst(l.isAfterAnnouncement, l.base.present, l.base.issueDate, ann)))
  }

  /** `x or None` on an area: zero counts as absent. */
  function NonZero(x: real): Option<real>
  {
    if x == 0.0 then None else Some(x)
  }

  /**
   * The entry of `excl_map` under `key`: None when no exclusive unit carries that number,
   * otherwise the area of the last one that does (zero read as absent).
   */
  function ExclusiveEntry(excl: seq<ExclusiveUnit>, key: string): Option<Option<real>>
  {
    if excl == [] then None
    else
      var u := excl[|excl| - 1];
      if u.unitNumber != [] && u.unitNumber == key then Some(NonZero(u.exclusiveArea))
      else ExclusiveEntry(excl[..|excl| - 1], key)
  }

  /** A rental unit whose number is on the exclusive part and whose two areas differ by more than 0.01. */
  predicate Mismatch(u: UnitInfo, excl: seq<ExclusiveUnit>)
  {
    var e := ExclusiveEntry(excl, u.unitNumber);
    var a := if u.exclusiveArea.Some? then NonZero(u.exclusiveArea.value) else None;
    e.Some? && e.value.Some? && a.Some? && Abs(a.value - e.value.value) > 0.01
  }

  /** The numbers of the mismatching rental units, in order. */
  function MismatchedAmong(rent: seq<UnitInfo>, excl: seq<ExclusiveUnit>): (r: seq<string>)
    ensures |r| <= |rent|
  {
    if rent == [] then []
    else
      var u := rent[|rent| - 1];
      MismatchedAmong(rent[..|rent| - 1], excl) + (if Mismatch(u, excl) then [u.unitNumber] else [])
  }

  /** `mismatched_units`: only computed when both unit lists are non-empty. */
  function MismatchedUnits(rent: seq<UnitInfo>, excl: seq<ExclusiveUnit>): seq<string>
  {
    if rent == [] || excl == [] then [] else MismatchedAmong(rent, excl)
  }

  /** The unit comparison of `_reconcile_result`: `excl_map` built first, then each rental unit checked. */
  method CollectMismatchedUnits(rent: seq<UnitInfo>, excl: seq<ExclusiveUnit>) returns (mismatched: seq<string>)
    ensures mismatched == MismatchedUnits(rent, excl)
  {
    mismatched := [];
    if rent == [] || excl == [] {
      return;
    }
    var exclMap: map<string, Option<real>> := map[];
    for i := 0 to |excl|
      invariant forall k :: k in exclMap <==> ExclusiveEntry(excl[..i], k).Some?
      invariant forall k :: k in exclMap ==> exclMap[k] == ExclusiveEntry(excl[..i], k).value
    {
      assert excl[..i + 1][..i] == excl[..i];
      var u := excl[i];
      if u.unitNumber != [] {
        exclMap := exclMap[u.unitNumber := NonZero(u.exclusiveArea)];
      }
    }
    assert excl[..|excl|] == excl;
    for j := 0 to |rent|
      invariant mismatched == MismatchedAmong(rent[..j], excl)
    {
      assert rent[..j + 1][..j] == rent[..j];
      var ru := rent[j];
      var unum := ru.unitNumber;
      var uarea := if ru.exclusiveArea.Some? then NonZero(ru.exclusiveArea.value) else None;
      if unum in exclMap && uarea.Some? && exclMap[unum].Some? {
        if Abs(uarea.value - exclMap[unum].value) > 0.01 {
          mismatched := mismatched + [unum];
        }
      }
    }
    assert rent[..|rent|] == rent;
  }

  function UnitsReconciled(r: ReviewResult): (r': ReviewResult)
    ensures r'.(rentalStatus := r.rentalStatus) == r
    ensures r'.rentalStatus.mismatchedUnits == MismatchedUnits(r.rentalStatus.units, r.ledgerExclusive.units)
    ensures r'.rentalStatus.units == r.rentalStatus.units && r'.rentalStatus.base == r.rentalStatus.base
  {
    r.(rentalStatus := r.rentalStatus.(mismatchedUnits := MismatchedUnits(r.rentalStatus.units, r.ledgerExclusive.units)))
  }

  /** A seal on the application counts as a submitted seal certificate. */
  function SealReconciled(r: ReviewResult): (r': ReviewResult)
    ensures r'.(ownerIdentity := r.ownerIdentity, application := r.application) == r
    ensures r'.application == r.application.(seal := r'.application.seal)
    ensures r'.ownerIdentity.ownerCount == r.ownerIdentity.ownerCount
    ensures r.ownerIdentity.sealCertificate.present ==> r'.ownerIdentity.sealCertificate.present
    ensures r.application.base.present && r.application.seal.sealExists ==>
      (r'.ownerIdentity.sealCertificate.present && r'.application.seal.certificateExists)
    ensures !(r.application.base.present && r.application.seal.sealExists) ==> r' == r
  {
    if r.application.base.present && r.application.seal.sealExists then
      var cert := r.ownerIdentity.sealCertificate;
      r.(ownerIdentity := r.ownerIdentity.(sealCertificate := if cert.present then cert else cert.(present := true, status := Valid)),
        application := r.application.(seal := r.application.seal.(certificateExists := true)))
    else r
  }

  /** Owner IDs count as submitted with a seal certificate or a single owner. */
  function IdsReconciled(r: ReviewResult): (r': ReviewResult)
    ensures r'.(ownerIdentity := r.ownerIdentity) == r
    ensures r'.ownerIdentity == r.ownerIdentity.(allIdsSubmitted := r'.ownerIdentity.allIdsSubmitted)
    ensures r'.ownerIdentity.allIdsSubmitted
      <==> r.ownerIdentity.allIdsSubmitted || r.ownerIdentity.sealCertificate.present || r.ownerIdentity.ownerCount <= 1
  {
    if r.ownerIdentity.sealCertificate.present || r.ownerIdentity.ownerCount <= 1 then
      r.(ownerIdentity := r.ownerIdentity.(allIdsSubmitted := true))
    else r
  }

  /** A stone exterior finish waives the fire-test certificate. */
  function StoneReconciled(r: ReviewResult): (r': ReviewResult)
    ensures r'.(testCert := r.testCert) == r
    ensures r'.testCert == r.testCert.(stoneExteriorException := r'.testCert.stoneExteriorException)
    ensures r'.testCert.stoneExteriorException <==> (r.testCert.stoneExteriorException
      || (r.asBuilt.base.present && OrEmpty(r.asBuilt.exteriorFinishMaterial) != []
      && Contains(r.asBuilt.exteriorFinishMaterial.value, "석재")))
  {
    var ext := r.asBuilt.exteriorFinishMaterial;
    if r.asBuilt.base.present && OrEmpty(ext) != [] && Contains(ext.value, "석재") then
      r.(testCert := r.testCert.(stoneExteriorException := true))
    else r
  }

  /** The approval-date step: the application's date against the building ledger's. */
  function ApprovalReconciled(r: ReviewResult): (r': ReviewResult)
    ensures r'.(application := r.application) == r
    ensures r'.application == r.application.(approvalDateMatch := r'.application.approvalDateMatch)
    ensures r'.application.approvalDateMatch
      == Some(ApprovalDatesMatch(OrEmpty(r.application.approvalDate), OrEmpty(r.ledgerTitle.approvalDate)))
  {
    r.(application := r.application.(approvalDateMatch :=
      Some(ApprovalDatesMatch(OrEmpty(r.application.approvalDate), OrEmpty(r.ledgerTitle.approvalDate)))))
  }

  /** The date steps: the power of attorney, the consent form, the LH confirmation and the land ledger. */
  function DatesReconciled(r: ReviewResult, ann: Option<Date>): (r': ReviewResult)
    ensures r'.(powerOfAttorney := r.powerOfAttorney, consent := r.consent,
      lhConfirmation := r.lhConfirmation, landLedger := r.landLedger) == r
    ensures r'.landLedger == r.landLedger.(isAfterAnnouncement := r'.landLedger.isAfterAnnouncement)
  {
    LandLedgerReconciled(LhReconciled(ConsentReconciled(PowerOfAttorneyReconciled(r, ann), ann), ann), ann)
  }

  /** The record steps after the dates: the unit comparison, the seal, the IDs and the stone exception. */
  function RecordsReconciled(r: ReviewResult): (r': ReviewResult)
    ensures r'.(rentalStatus := r.rentalStatus, ownerIdentity := r.ownerIdentity, application := r.application,
      testCert := r.testCert) == r
    ensures r'.application == r.application.(seal := r'.application.seal)
    ensures r'.rentalStatus.mismatchedUnits == MismatchedUnits(r.rentalStatus.units, r.ledgerExclusive.units)
    ensures r.application.base.present && r.application.seal.sealExists ==>
      (r'.ownerIdentity.sealCertificate.present && r'.application.seal.certificateExists && r'.ownerIdentity.allIdsSubmitted)
    ensures r.ownerIdentity.ownerCount <= 1 ==> r'.ownerIdentity.allIdsSubmitted
    ensures (r.asBuilt.base.present && OrEmpty(r.asBuilt.exteriorFinishMaterial) != []
      && Contains(r.asBuilt.exteriorFinishMaterial.value, "석재")) ==> r'.testCert.stoneExteriorException
  {
    StoneReconciled(IdsReconciled(SealReconciled(UnitsReconciled(r))))
  }

  /** `_reconcile_result(result, announcement_date)` */
  function Reconciled(r: ReviewResult, announcementDate: string): (r': ReviewResult)
    ensures r'.corporate == r.corporate
    ensures r'.application.landAreaMatch <==> r.application.landAreaMatch || LandAreasAgree(r)
    ensures r'.rentalStatus.mismatchedUnits == MismatchedUnits(r.rentalStatus.units, r.ledgerExclusive.units)
  {
    RecordsReconciled(DatesReconciled(ApprovalReconciled(LandAreasReconciled(r)), Strptime(announcementDate, FmtDash)))
  }

  /** `_reconcile_result` step by step, with the unit comparison as its loop. */
  method Reconcile(r: ReviewResult, announcementDate: string) returns (result: ReviewResult)
    ensures result == Reconciled(r, announcementDate)
  {
    var ann := Strptime(announcementDate, FmtDash);
    result := ApprovalReconciled(LandAreasReconciled(r));
    result := DatesReconciled(result, ann);
    var mismatched := CollectMismatchedUnits(result.rentalStatus.units, result.ledgerExclusive.units);
    var withUnits := result.(rentalStatus := result.rentalStatus.(mismatchedUnits := mismatched));
    assert withUnits == UnitsReconciled(result);
    result := StoneReconciled(IdsReconciled(SealReconciled(withUnits)));
  }

  // ================================================================== analyze

  /** What the dedicated owner extractor reports for the whole file. */
  datatype OwnerExtraction = OwnerExtraction(
    name: Option<string>, birthDate: Option<string>, address: Option<string>,
    phone: Option<string>, email: Option<string>, isCorporation: bool, hasSeal: bool)

  /** A field topped up from the extractor: only an empty field takes the extracted value. */
  function TopUp(current: Option<string>, found: Option<string>): (r: Option<string>)
    ensures NonEmpty(current) ==> r == current
    ensures !NonEmpty(current) && NonEmpty(found) ==> r == found
    ensures !NonEmpty(found) ==> r == current
  {
    if NonEmpty(found) && !NonEmpty(current) then found else current
  }

  /** The extractor runs when an existing application lacks the owner's name or address. */
  predicate OwnerIncomplete(r: ReviewResult)
  {
    (!NonEmpty(r.application.owner.name) || !NonEmpty(r.application.owner.address)) && r.application.base.present
  }

  /** Step 5 of `analyze`: the owner extractor's findings fill the gaps of the application. */
  function ExtractorApplied(r: ReviewResult, extracted: Option<OwnerExtraction>): (r': ReviewResult)
    ensures r'.(application := r.application, corporate := r.corporate) == r
    ensures !OwnerIncomplete(r) || extracted.None? ==> r' == r
    ensures r'.corporate == r.corporate.(isCorporation := r'.corporate.isCorporation)
    ensures r.corporate.isCorporation ==> r'.corporate.isCorporation
    ensures r.application.seal.sealExists ==> r'.application.seal.sealExists
    ensures NonEmpty(r.application.owner.name) ==> r'.application.owner.name == r.application.owner.name
    ensures NonEmpty(r.application.owner.address) ==> r'.application.owner.address == r.application.owner.address
    ensures OwnerIncomplete(r) && extracted.Some? ==> (r'.application.owner.isComplete <==> FilledCount(r'.application.owner) >= 3)
  {
    if OwnerIncomplete(r) && extracted.Some? then
      var ex := extracted.value;
      var seal := r.application.seal;
      r.(application := r.application.(owner := OwnerToppedUp(r.application.owner, ex),
          seal := seal.(sealExists := seal.sealExists || ex.hasSeal)),
        corporate := r.corporate.(isCorporation := r.corporate.isCorporation || ex.isCorporation))
    else r
  }

  /** The owner's fields topped up from the extractor's, complete when three or more are filled. */
  function OwnerToppedUp(o: OwnerInfo, ex: OwnerExtraction): (o': OwnerInfo)
    ensures NonEmpty(o.name) ==> o'.name == o.name
    ensures NonEmpty(o.address) ==> o'.address == o.address
    ensures o'.isComplete <==> FilledCount(o') >= 3
  {
    var o1 := OwnerInfo(TopUp(o.name, ex.name), TopUp(o.birthDate, ex.birthDate), TopUp(o.address, ex.address),
      TopUp(o.phone, ex.phone), TopUp(o.email, ex.email), false);
    o1.(isComplete := FilledCount(o1) >= 3)
  }

  /** `all_text_combined`: every page's text followed by a newline. */
  function Combined(pageTexts: seq<string>): string
  {
    if pageTexts == [] then []
    else Combined(pageTexts[..|pageTexts| - 1]) + pageTexts[|pageTexts| - 1] + "\n"
  }

  /** The type a page is given: the keyword detection, or unknown for a page with little text. */
  function PageType(text: string): (p: (DocTypes.DocType, real))
    ensures A.SignificantLength(text) < 40 ==> p == (DocTypes.Unknown, 0.0)
  {
    if A.SignificantLength(text) < 40 then (DocTypes.Unknown, 0.0) else A.Detection(text)
  }

  /** The merged documents `_merge_documents_by_type` returns: one per type, in order of first appearance. */
  function MergedDocuments(documents: seq<A.DocumentInfo>): (m: seq<A.DocumentInfo>)
    ensures |m| == |A.TypesInOrder(documents)|
  {
    var ts := A.TypesInOrder(documents);
    seq(|ts|, i requires 0 <= i < |ts| =>
      var g := A.Group(documents, ts[i]);
      if g != [] then A.MergeGroup(g) else A.DocumentInfo(ts[i], [], Null, 0.0))
  }

  /** The corporation flag the page text alone decides. */
  function TextCorporation(r: ReviewResult, allText: string): (r': ReviewResult)
    ensures A.DetectCorporationFromText(allText) ==> r' == r.(corporate := r.corporate.(isCorporation := true))
    ensures !A.DetectCorporationFromText(allText) ==> r' == r
  {
    if A.DetectCorporationFromText(allText) then r.(corporate := r.corporate.(isCorporation := true)) else r
  }

  /** The record `analyze` ends with, the AI step's documents given. */
  function Analyzed(pageTexts: seq<string>, documents: seq<A.DocumentInfo>, announcementDate: string,
                    reviewDate: string, fb: TextFallback, extracted: Option<OwnerExtraction>): ReviewResult
  {
    var text := Combined(pageTexts);
    var built := Built(MergedDocuments(documents), announcementDate, reviewDate, text, fb);
    ExtractorApplied(TextCorporation(built, text), extracted)
  }

  /** The types of the pages, page by page. */
  function PageTypes(pageTexts: seq<string>): (ts: seq<(DocTypes.DocType, real)>)
    ensures |ts| == |pageTexts|
  {
    if pageTexts == [] then []
    else PageTypes(pageTexts[..|pageTexts| - 1]) + [PageType(pageTexts[|pageTexts| - 1])]
  }

  /** Each page keeps its own type, in page order. */
  lemma {:induction false} PageTypesAt(pageTexts: seq<string>, i: nat)
    requires i < |pageTexts|
    ensures PageTypes(pageTexts)[i] == PageType(pageTexts[i])
  {
    if i < |pageTexts| - 1 {
      PageTypesAt(pageTexts[..|pageTexts| - 1], i);
    }
  }

  /** One page's typing, tied to its function. */
  method ClassifyOne(text: string) returns (page: (DocTypes.DocType, real))
    ensures page == PageType(text)
  {
    var docType, confidence := A.ClassifyPage(text);
    page := (docType, confidence);
  }

  /** One more page extends both the text and the page types. */
  lemma PageStep(pageTexts: seq<string>, i: nat)
    requires i < |pageTexts|
    ensures Combined(pageTexts[..i + 1]) == Combined(pageTexts[..i]) + pageTexts[i] + "\n"
    ensures PageTypes(pageTexts[..i + 1]) == PageTypes(pageTexts[..i]) + [PageType(pageTexts[i])]
  {
    assert pageTexts[..i + 1][..i] == pageTexts[..i];
  }

  /** The page loop of `analyze`: each page typed, and all the text gathered. */
  method ClassifyPages(pageTexts: seq<string>) returns (pageTypes: seq<(DocTypes.DocType, real)>, allText: string)
    ensures pageTypes == PageTypes(pageTexts)
    ensures allText == Combined(pageTexts)
  {
    allText := "";
    pageTypes := [];
    for i := 0 to |pageTexts|
      invariant allText == Combined(pageTexts[..i])
      invariant pageTypes == PageTypes(pageTexts[..i])
    {
      PageStep(pageTexts, i);
      allText := allText + pageTexts[i] + "\n";
      var page := ClassifyOne(pageTexts[i]);
      pageTypes := pageTypes + [page];
    }
    assert pageTexts[..|pageTexts|] == pageTexts;
  }

  /** `_merge_documents_by_type`, tied to its function. */
  method MergeDocuments(documents: seq<A.DocumentInfo>) returns (merged: seq<A.DocumentInfo>)
    ensures merged == MergedDocuments(documents)
  {
    merged := A.MergeDocumentsByType(documents);
    assert forall i :: 0 <= i < |merged| ==> merged[i] == MergedDocuments(documents)[i];
  }

  /**
   * `analyze(pdf_path, announcement_date)` from the extracted pages on: the per-page typing
   * loop, the corporation keywords over the whole text, the merge, the build and the owner
   * extractor. The AI step's documents, the review date and the extractor's findings are
   * parameters.
   */
  method Analyze(pageTexts: seq<string>, documents: seq<A.DocumentInfo>, announcementDate: string, reviewDate: string,
                 fb: TextFallback, extracted: Option<OwnerExtraction>)
    returns (pageTypes: seq<(DocTypes.DocType, real)>, result: ReviewResult)
    ensures pageTypes == PageTypes(pageTexts)
    ensures result == Analyzed(pageTexts, documents, announcementDate, reviewDate, fb, extracted)
  {
    var allText;
    pageTypes, allText := ClassifyPages(pageTexts);
    var corp := A.DetectCorporationFromText(allText);
    var merged := MergeDocuments(documents);
    result := BuildResult(merged, announcementDate, reviewDate, allText, fb);
    if corp && !result.corporate.isCorporation {
      result := result.(corporate := result.corporate.(isCorporation := true));
    }
    assert result == TextCorporation(Built(merged, announcementDate, reviewDate, allText, fb), allText);
    result := ExtractorApplied(result, extracted);
  }

  // ================================================================== laws

  /** The phone rule: the 010 branch adds nothing to the "non-blank text" branch. */
  lemma PhoneRule(current: Option<string>, ps: string)
    ensures PhoneOf(current, ps) == if ps != [] && Lower(ps) !in BlankWords then Some(ps) else current
  {
    if |Digits(ps)| >= 10 {
      assert |Lower(ps)| >= 10;
      assert Lower(ps) != "null" && Lower(ps) != "none" && Lower(ps) != "-";
    }
  }

  /** On a list without repeats, appending the new names is de-duplicating the concatenation. */
  lemma {:induction false} AppendNewIsDedup(xs: seq<string>, names: seq<string>)
    requires NoDuplicates(xs)
    ensures AppendNew(xs, names) == Dedup(xs + names)
  {
    if names == [] {
      assert xs + names == xs;
      DedupOfDistinct(xs);
    } else {
      var init := names[..|names| - 1];
      AppendNewIsDedup(xs, init);
      assert (xs + names)[..|xs + names| - 1] == xs + init;
    }
  }

  /** `_build_result` sorts the housing sale application before every other document. */
  lemma ApplicationFirst(documents: seq<A.DocumentInfo>)
    ensures multiset(Ordered(documents)) == multiset(documents)
    ensures forall i, j ::
      (0 <= i < j < |Ordered(documents)| && Ordered(documents)[j].docType == DocTypes.HousingSaleApplication) ==>
        Ordered(documents)[i].docType == DocTypes.HousingSaleApplication
  {
    Sorting.SortByPermutes(documents, DocRank);
    Sorting.SortBySorted(documents, DocRank);
    var o := Ordered(documents);
    forall i, j | 0 <= i < j < |o| && o[j].docType == DocTypes.HousingSaleApplication
      ensures o[i].docType == DocTypes.HousingSaleApplication
    {
      assert DocRank(o[i]) <= DocRank(o[j]);
    }
  }

  /** Delivery confirmations are mapped before test certificates, whose mapper keeps a confirmed delivery. */
  lemma DeliveryBeforeTestCertificate(documents: seq<A.DocumentInfo>)
    ensures forall i, j ::
      (0 <= i < |Ordered(documents)| && 0 <= j < |Ordered(documents)|
       && Ordered(documents)[i].docType == DocTypes.DeliveryConfirmation
       && Ordered(documents)[j].docType == DocTypes.TestCertificate) ==> i < j
  {
    Sorting.SortBySorted(documents, DocRank);
    var o := Ordered(documents);
    forall i, j | 0 <= i < |o| && 0 <= j < |o| && o[i].docType == DocTypes.DeliveryConfirmation
      && o[j].docType == DocTypes.TestCertificate
      ensures i < j
    {
      assert DocRank(o[i]) < DocRank(o[j]);
    }
  }

  /** No mapper clears the corporation flag. */
  lemma DocumentKeepsCorporation(r: ReviewResult, d: A.DocumentInfo, rawText: string, fb: TextFallback)
    requires r.corporate.isCorporation
    ensures DocumentApplied(r, d, rawText, fb).corporate.isCorporation
  {
    var data := DataOf(d);
    match d.docType
    case SealCertificate =>
      assert SealCertificateApplied(r, data).corporate.isCorporation;
    case _ =>
  }

  lemma {:induction false} AllAppliedKeepsCorporation(r: ReviewResult, docs: seq<A.DocumentInfo>, k: nat,
                                                      rawText: string, fb: TextFallback)
    requires k <= |docs|
    requires AllApplied(r, docs[..k], rawText, fb).corporate.isCorporation
    ensures AllApplied(r, docs, rawText, fb).corporate.isCorporation
  {
    if k < |docs| {
      var init := docs[..|docs| - 1];
      assert init[..k] == docs[..k];
      AllAppliedKeepsCorporation(r, init, k, rawText, fb);
      DocumentKeepsCorporation(AllApplied(r, init, rawText, fb), docs[|docs| - 1], rawText, fb);
    } else {
      assert docs[..k] == docs;
    }
  }

  /** The business-registration mapper sets the corporation flag. */
  lemma BusinessRegistrationStep(r: ReviewResult, d: A.DocumentInfo, rawText: string, fb: TextFallback)
    requires d.docType == DocTypes.BusinessRegistration && Reported(DataOf(d))
    ensures DocumentApplied(r, d, rawText, fb).corporate.isCorporation
  {
    assert DocumentApplied(r, d, rawText, fb) == BusinessRegistrationApplied(r, DataOf(d));
  }

  /** An existing business registration makes the applicant a corporation in the built record. */
  lemma BusinessRegistrationMakesCorporation(documents: seq<A.DocumentInfo>, announcementDate: string,
                                             reviewDate: string, rawText: string, fb: TextFallback, k: nat)
    requires k < |documents| && documents[k].docType == DocTypes.BusinessRegistration && Reported(DataOf(documents[k]))
    ensures Built(documents, announcementDate, reviewDate, rawText, fb).corporate.isCorporation
  {
    Sorting.SortByPermutes(documents, DocRank);
    var o := Ordered(documents);
    assert documents[k] in multiset(documents);
    assert documents[k] in o;
    var j :| 0 <= j < |o| && o[j] == documents[k];
    var start := NewReviewResult(reviewDate, Some(announcementDate));
    BusinessRegistrationPrefix(start, o, j, rawText, fb);
    AllAppliedKeepsCorporation(start, o, j + 1, rawText, fb);
  }

  /** Applying the documents up to a reported business registration yields a corporation. */
  lemma BusinessRegistrationPrefix(r: ReviewResult, o: seq<A.DocumentInfo>, j: nat, rawText: string, fb: TextFallback)
    requires j < |o| && o[j].docType == DocTypes.BusinessRegistration && Reported(DataOf(o[j]))
    ensures AllApplied(r, o[..j + 1], rawText, fb).corporate.isCorporation
  {
    assert o[..j + 1][..j] == o[..j];
    assert AllApplied(r, o[..j + 1], rawText, fb)
      == DocumentApplied(AllApplied(r, o[..j], rawText, fb), o[j], rawText, fb);
    BusinessRegistrationStep(AllApplied(r, o[..j], rawText, fb), o[j], rawText, fb);
  }

  /** Corporation keywords anywhere in the page text make the final record a corporation's. */
  lemma TextCorporationDecides(pageTexts: seq<string>, documents: seq<A.DocumentInfo>, announcementDate: string,
                               reviewDate: string, fb: TextFallback, extracted: Option<OwnerExtraction>)
    requires A.DetectCorporationFromText(Combined(pageTexts))
    ensures Analyzed(pageTexts, documents, announcementDate, reviewDate, fb, extracted).corporate.isCorporation
  {
  }

  /** A seal on an existing application stands for the seal certificate and the owners' IDs. */
  lemma SealCoversCertificate(r: ReviewResult, announcementDate: string)
    requires r.application.base.present && r.application.seal.sealExists
    ensures Reconciled(r, announcementDate).ownerIdentity.sealCertificate.present
    ensures Reconciled(r, announcementDate).application.seal.certificateExists
    ensures Reconciled(r, announcementDate).ownerIdentity.allIdsSubmitted
  {
  }

  /** A single owner needs no further ID documents. */
  lemma SingleOwnerIds(r: ReviewResult, announcementDate: string)
    requires r.ownerIdentity.ownerCount <= 1
    ensures Reconciled(r, announcementDate).ownerIdentity.allIdsSubmitted
  {
  }

  /** A stone exterior finish on an existing as-built drawing sets the test-certificate exception. */
  lemma StoneFinishException(r: ReviewResult, announcementDate: string)
    requires r.asBuilt.base.present && r.asBuilt.exteriorFinishMaterial.Some?
    requires Strip(r.asBuilt.exteriorFinishMaterial.value) != [] && Contains(r.asBuilt.exteriorFinishMaterial.value, "석재")
    ensures Reconciled(r, announcementDate).testCert.stoneExteriorException
  {
  }

  /**
   * On approval dates printed by `str(date)` the comparison is by year and month: two
   * such dates match exactly when they fall in the same month.
   */
  lemma ApprovalDatesOfIso(a: Date, t: Date)
    requires ValidDate(a) && ValidDate(t) && 1000 <= a.year && 1000 <= t.year
    ensures ApprovalDatesMatch(Iso(a), Iso(t)) <==> (a.year, a.month) == (t.year, t.month)
  {
    IsoParsesToYmd(a);
    IsoParsesToYmd(t);
    IsoHead6(a);
    IsoHead6(t);
    if Head6(NormDate(Iso(a))) == Head6(NormDate(Iso(t))) {
      var ha := Head6(NormDate(Iso(a)));
      assert ha[..4] == Pad4(a.year) && ha[4..] == Pad2(a.month);
      assert ha[..4] == Pad4(t.year) && ha[4..] == Pad2(t.month);
      Pad4Value(a.year);
      Pad4Value(t.year);
      Pad2Value(a.month);
      Pad2Value(t.month);
    }
  }

  /** `_parse_to_ymd(str(d))` reads back `d` through the first format. */
  lemma IsoParsesToYmd(d: Date)
    requires ValidDate(d) && 1000 <= d.year
    ensures ParseToYmd(Iso(d)) == Some(d)
  {
    var s := Iso(d);
    ApprovalDates.AllDigitsStripFormatted(d);
    assert Head24(s) == s;
    IsoRoundTrip(d);
    assert YmdFormats[0] == FmtDash;
  }

  /** The first six digits of a printed date are its year and month. */
  lemma IsoHead6(d: Date)
    requires ValidDate(d)
    ensures Head6(NormDate(Iso(d))) == Pad4(d.year) + Pad2(d.month)
  {
    var y, m, dd := Pad4(d.year), Pad2(d.month), Pad2(d.day);
    assert Iso(d) == y + (['-'] + (m + (['-'] + dd)));
    DigitsConcat(y, ['-'] + (m + (['-'] + dd)));
    DigitsConcat(['-'], m + (['-'] + dd));
    DigitsConcat(m, ['-'] + dd);
    DigitsConcat(['-'], dd);
    DigitsOfDigits(y);
    DigitsOfDigits(m);
    DigitsOfDigits(dd);
    assert Digits(['-']) == [];
    assert Digits(Iso(d)) == y + m + dd;
    assert (y + m + dd)[..6] == y + m;
  }

  /** The same approval date always matches itself. */
  lemma ApprovalMatchReflexive(app: string, title: string)
    ensures ApprovalDatesMatch(app, app)
  {
  }

  /** The entry of the exclusive-part map is the area of the last unit with that number. */
  lemma {:induction false} ExclusiveEntryLastWins(excl: seq<ExclusiveUnit>, key: string, j: nat)
    requires j < |excl| && excl[j].unitNumber == key && key != []
    requires forall l :: j < l < |excl| ==> excl[l].unitNumber != key
    ensures ExclusiveEntry(excl, key) == Some(NonZero(excl[j].exclusiveArea))
  {
    if j < |excl| - 1 {
      ExclusiveEntryLastWins(excl[..|excl| - 1], key, j);
    }
  }

  /** A number is missing from the exclusive-part map exactly when no unit carries it. */
  lemma {:induction false} ExclusiveEntryNone(excl: seq<ExclusiveUnit>, key: string)
    ensures ExclusiveEntry(excl, key).None? <==> key == [] || forall l :: 0 <= l < |excl| ==> excl[l].unitNumber != key
  {
    if excl != [] {
      ExclusiveEntryNone(excl[..|excl| - 1], key);
      assert forall l :: 0 <= l < |excl| - 1 ==> excl[..|excl| - 1][l] == excl[l];
    }
  }

  /** A unit number is reported as mismatched exactly when some rental unit with it mismatches. */
  lemma {:induction false} MismatchedAmongIff(rent: seq<UnitInfo>, excl: seq<ExclusiveUnit>, x: string)
    ensures x in MismatchedAmong(rent, excl)
      <==> exists i :: 0 <= i < |rent| && rent[i].unitNumber == x && Mismatch(rent[i], excl)
  {
    if rent != [] {
      var init := rent[..|rent| - 1];
      MismatchedAmongIff(init, excl, x);
      if x in MismatchedAmong(init, excl) {
        var i :| 0 <= i < |init| && init[i].unitNumber == x && Mismatch(init[i], excl);
        assert rent[i] == init[i];
      }
      if exists i :: 0 <= i < |rent| && rent[i].unitNumber == x && Mismatch(rent[i], excl) {
        var i :| 0 <= i < |rent| && rent[i].unitNumber == x && Mismatch(rent[i], excl);
        if i < |init| {
          assert init[i] == rent[i];
        }
      }
    }
  }

  /** `mismatched_units` lists the rental units whose area differs from the exclusive part's, and only those. */
  lemma MismatchedUnitsIff(rent: seq<UnitInfo>, excl: seq<ExclusiveUnit>, x: string)
    ensures x in MismatchedUnits(rent, excl)
      <==> excl != [] && exists i :: 0 <= i < |rent| && rent[i].unitNumber == x && Mismatch(rent[i], excl)
  {
    MismatchedAmongIff(rent, excl, x);
  }
}
