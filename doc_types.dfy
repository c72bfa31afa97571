/**
 * The document categories of a purchase application bundle (`DocType`), shared by every
 * page classifier. Each member carries its Korean display value and its Python member
 * name; the member name is what `str(doc_type)` shows ("DocType.<NAME>"), and therefore
 * what orders documents when they are sorted by `str(doc_type)`.
 */
module DocTypes {
  import opened Text

  datatype DocType =
    | HousingSaleApplication
    | RentalStatus
    | PowerOfAttorney
    | ConsentForm
    | IntegrityPledge
    | LhEmployeeConfirm
    | SealCertificate
    | IdCard
    | AgentIdCard
    | BuildingLedgerTitle
    | BuildingLedgerSummary
    | BuildingLedgerExclusive
    | BuildingLayout
    | LandLedger
    | LandUsePlan
    | BuildingRegistry
    | LandRegistry
    | AsBuiltDrawing
    | TestCertificate
    | DeliveryConfirmation
    | RealtorRegistration
    | BusinessRegistration
    | Unknown

  /** `doc_type.value`: the Korean name of the category. */
  function Label(t: DocType): (r: string)
    ensures r != []
  {
    match t
    case HousingSaleApplication => "주택매도신청서"
    case RentalStatus => "매도신청주택임대현황"
    case PowerOfAttorney => "위임장"
    case ConsentForm => "개인정보동의서"
    case IntegrityPledge => "청렴서약서"
    case LhEmployeeConfirm => "공사직원확인서"
    case SealCertificate => "인감증명서"
    case IdCard => "신분증"
    case AgentIdCard => "대리인신분증사본"
    case BuildingLedgerTitle => "건축물대장표제부"
    case BuildingLedgerSummary => "건축물대장총괄표제부"
    case BuildingLedgerExclusive => "건축물대장전유부"
    case BuildingLayout => "건축물현황도"
    case LandLedger => "토지대장"
    case LandUsePlan => "토지이용계획확인원"
    case BuildingRegistry => "건물등기부등본"
    case LandRegistry => "토지등기부등본"
    case AsBuiltDrawing => "준공도면"
    case TestCertificate => "시험성적서"
    case DeliveryConfirmation => "납품확인서"
    case RealtorRegistration => "중개사무소등록증"
    case BusinessRegistration => "사업자등록증"
    case Unknown => "미확인문서"
  }

  /** The Python member name, as `str(doc_type)` shows it after "DocType.". */
  function MemberName(t: DocType): (r: string)
    ensures r != []
  {
    match t
    case HousingSaleApplication => "HOUSING_SALE_APPLICATION"
    case RentalStatus => "RENTAL_STATUS"
    case PowerOfAttorney => "POWER_OF_ATTORNEY"
    case ConsentForm => "CONSENT_FORM"
    case IntegrityPledge => "INTEGRITY_PLEDGE"
    case LhEmployeeConfirm => "LH_EMPLOYEE_CONFIRM"
    case SealCertificate => "SEAL_CERTIFICATE"
    case IdCard => "ID_CARD"
    case AgentIdCard => "AGENT_ID_CARD"
    case BuildingLedgerTitle => "BUILDING_LEDGER_TITLE"
    case BuildingLedgerSummary => "BUILDING_LEDGER_SUMMARY"
    case BuildingLedgerExclusive => "BUILDING_LEDGER_EXCLUSIVE"
    case BuildingLayout => "BUILDING_LAYOUT"
    case LandLedger => "LAND_LEDGER"
    case LandUsePlan => "LAND_USE_PLAN"
    case BuildingRegistry => "BUILDING_REGISTRY"
    case LandRegistry => "LAND_REGISTRY"
    case AsBuiltDrawing => "AS_BUILT_DRAWING"
    case TestCertificate => "TEST_CERTIFICATE"
    case DeliveryConfirmation => "DELIVERY_CONFIRMATION"
    case RealtorRegistration => "REALTOR_REGISTRATION"
    case BusinessRegistration => "BUSINESS_REGISTRATION"
    case Unknown => "UNKNOWN"
  }

  /** `a` and `b` agree before `k`, and position `k` decides `a < b` (or `a` ends there and `b` goes on). */
  predicate LessAt(a: string, b: string, k: nat)
  {
    k <= |a| && k <= |b| && (forall j :: 0 <= j < k ==> a[j] == b[j])
    && ((k == |a| && k < |b|) || (k < |a| && k < |b| && a[k] < b[k]))
  }

  /** Python's `<` on strings: lexicographic by code point, a proper prefix first. */
  ghost predicate StrLess(a: string, b: string)
  {
    exists k: nat :: LessAt(a, b, k)
  }

  /**
   * The sort key `(0 if t == HOUSING_SALE_APPLICATION else 1, str(t))` as one number: the
   * housing application first, every other member by the alphabetical position of its member
   * name (`NextByName` checks the order).
   */
  function Rank(t: DocType): (r: nat)
    ensures r <= 22
    ensures r == 0 <==> t == HousingSaleApplication
  {
    match t
    case HousingSaleApplication => 0
    case AgentIdCard => 1
    case AsBuiltDrawing => 2
    case BuildingLayout => 3
    case BuildingLedgerExclusive => 4
    case BuildingLedgerSummary => 5
    case BuildingLedgerTitle => 6
    case BuildingRegistry => 7
    case BusinessRegistration => 8
    case ConsentForm => 9
    case DeliveryConfirmation => 10
    case IdCard => 11
    case IntegrityPledge => 12
    case LandLedger => 13
    case LandRegistry => 14
    case LandUsePlan => 15
    case LhEmployeeConfirm => 16
    case PowerOfAttorney => 17
    case RealtorRegistration => 18
    case RentalStatus => 19
    case SealCertificate => 20
    case TestCertificate => 21
    case Unknown => 22
  }

  /** The member whose name follows `t`'s alphabetically (HOUSING_SALE_APPLICATION left aside). */
  function Next(t: DocType): (r: DocType)
    requires t != HousingSaleApplication && t != Unknown
    ensures Rank(r) == Rank(t) + 1
  {
    match t
    case AgentIdCard => AsBuiltDrawing
    case AsBuiltDrawing => BuildingLayout
    case BuildingLayout => BuildingLedgerExclusive
    case BuildingLedgerExclusive => BuildingLedgerSummary
    case BuildingLedgerSummary => BuildingLedgerTitle
    case BuildingLedgerTitle => BuildingRegistry
    case BuildingRegistry => BusinessRegistration
    case BusinessRegistration => ConsentForm
    case ConsentForm => DeliveryConfirmation
    case DeliveryConfirmation => IdCard
    case IdCard => IntegrityPledge
    case IntegrityPledge => LandLedger
    case LandLedger => LandRegistry
    case LandRegistry => LandUsePlan
    case LandUsePlan => LhEmployeeConfirm
    case LhEmployeeConfirm => PowerOfAttorney
    case PowerOfAttorney => RealtorRegistration
    case RealtorRegistration => RentalStatus
    case RentalStatus => SealCertificate
    case SealCertificate => TestCertificate
    case TestCertificate => Unknown
  }

  /** The name order from AGENT_ID_CARD to BUILDING_LEDGER_EXCLUSIVE and from BUILDING_REGISTRY, with the position where each pair first differs. */
  lemma NamesAscend1(t: DocType)
    requires t == AgentIdCard || t == AsBuiltDrawing || t == BuildingLayout || t == BuildingRegistry
    ensures StrLess(MemberName(t), MemberName(Next(t)))
  {
    if t == AgentIdCard { assert LessAt(MemberName(t), MemberName(Next(t)), 1); }
    if t == AsBuiltDrawing { assert LessAt(MemberName(t), MemberName(Next(t)), 0); }
    if t == BuildingLayout { assert LessAt(MemberName(t), MemberName(Next(t)), 10); }
    if t == BuildingRegistry { assert LessAt(MemberName(t), MemberName(Next(t)), 2); }
  }

  /** The name order among the BUILDING_LEDGER_ members, which first differ after that prefix. */
  lemma NamesAscendLedger(t: DocType)
    requires t == BuildingLedgerExclusive || t == BuildingLedgerSummary || t == BuildingLedgerTitle
    ensures StrLess(MemberName(t), MemberName(Next(t)))
  {
    if t == BuildingLedgerExclusive { assert LessAt(MemberName(t), MemberName(Next(t)), 16); }
    if t == BuildingLedgerSummary { assert LessAt(MemberName(t), MemberName(Next(t)), 16); }
    if t == BuildingLedgerTitle { assert LessAt(MemberName(t), MemberName(Next(t)), 9); }
  }

  /** The name order from BUSINESS_REGISTRATION to LAND_REGISTRY, with the position where each pair first differs. */
  lemma NamesAscend2(t: DocType)
    requires t == BusinessRegistration || t == ConsentForm || t == DeliveryConfirmation || t == IdCard
      || t == IntegrityPledge || t == LandLedger || t == LandRegistry
    ensures StrLess(MemberName(t), MemberName(Next(t)))
  {
    if t == BusinessRegistration { assert LessAt(MemberName(t), MemberName(Next(t)), 0); }
    if t == ConsentForm { assert LessAt(MemberName(t), MemberName(Next(t)), 0); }
    if t == DeliveryConfirmation { assert LessAt(MemberName(t), MemberName(Next(t)), 0); }
    if t == IdCard { assert LessAt(MemberName(t), MemberName(Next(t)), 1); }
    if t == IntegrityPledge { assert LessAt(MemberName(t), MemberName(Next(t)), 0); }
    if t == LandLedger { assert LessAt(MemberName(t), MemberName(Next(t)), 5); }
    if t == LandRegistry { assert LessAt(MemberName(t), MemberName(Next(t)), 5); }
  }

  /** The name order from LAND_REGISTRY to UNKNOWN, with the position where each pair first differs. */
  lemma NamesAscend3(t: DocType)
    requires t == LandUsePlan || t == LhEmployeeConfirm || t == PowerOfAttorney || t == RealtorRegistration
      || t == RentalStatus || t == SealCertificate || t == TestCertificate
    ensures StrLess(MemberName(t), MemberName(Next(t)))
  {
    if t == LandUsePlan { assert LessAt(MemberName(t), MemberName(Next(t)), 1); }
    if t == LhEmployeeConfirm { assert LessAt(MemberName(t), MemberName(Next(t)), 0); }
    if t == PowerOfAttorney { assert LessAt(MemberName(t), MemberName(Next(t)), 0); }
    if t == RealtorRegistration { assert LessAt(MemberName(t), MemberName(Next(t)), 2); }
    if t == RentalStatus { assert LessAt(MemberName(t), MemberName(Next(t)), 0); }
    if t == SealCertificate { assert LessAt(MemberName(t), MemberName(Next(t)), 0); }
    if t == TestCertificate { assert LessAt(MemberName(t), MemberName(Next(t)), 0); }
  }

  /**
   * Ranking agrees with Python's ordering of `str(doc_type)` ("DocType." followed by the
   * member name): each member ranks just below the member whose name follows its own.
   */
  lemma NextByName(t: DocType)
    requires t != HousingSaleApplication && t != Unknown
    ensures Rank(Next(t)) == Rank(t) + 1
    ensures StrLess(MemberName(t), MemberName(Next(t)))
  {
    if t == BuildingLedgerExclusive || t == BuildingLedgerSummary || t == BuildingLedgerTitle {
      NamesAscendLedger(t);
    } else if Rank(t) <= 7 {
      NamesAscend1(t);
    } else if Rank(t) <= 14 {
      NamesAscend2(t);
    } else {
      NamesAscend3(t);
    }
  }
}
