/**
 * The review records (pydantic models with defaults) and the multi-file aggregation
 * `PublicHousingReviewResult.merge_results`.
 *
 * The Python field `exists` is named `present` here (`exists` is a Dafny keyword).
 * Records are values: the deep copies the source makes are implicit, and an input
 * can never be changed by a merge.
 */
module DataModels {
  import opened Wrappers
  import opened Text

  datatype DocumentStatus = Valid | Missing | Incomplete | Invalid
  datatype ApplicantType = Individual | Corporation
  datatype AgentType = NoAgent | IndividualAgent | RealtorAgent

  /** Fields every document record shares. */
  datatype DocBase = DocBase(present: bool, issueDate: Option<string>, status: DocumentStatus, issues: seq<string>)

  const DefaultBase := DocBase(false, None, Missing, [])

  // ----------------------------------------------------------------- 1. sale application

  datatype OwnerInfo = OwnerInfo(
    name: Option<string>, birthDate: Option<string>, address: Option<string>,
    phone: Option<string>, email: Option<string>, isComplete: bool)

  const DefaultOwner := OwnerInfo(None, None, None, None, None, false)

  datatype AgentInfo = AgentInfo(present: bool, name: Option<string>, agentType: AgentType, idCardMatch: bool)

  const DefaultAgent := AgentInfo(false, None, NoAgent, false)

  datatype SealVerification = SealVerification(
    sealExists: bool, certificateExists: bool, matchRate: Option<real>, isValid: bool)

  const DefaultSeal := SealVerification(false, false, None, false)

  /**
   * `approvalDateMatch` is declared `bool` with default False in the source; a caller
   * may still store None in it, so the model keeps the third state as `None`.
   */
  datatype HousingSaleApplication = HousingSaleApplication(
    base: DocBase, writtenDate: Option<string>, isAfterAnnouncement: bool,
    announcementDate: Option<string>, owner: OwnerInfo, seal: SealVerification, agent: AgentInfo,
    landArea: Option<real>, landAreaMatch: bool, approvalDate: Option<string>,
    approvalDateMatch: Option<bool>)

  const DefaultApplication := HousingSaleApplication(
    DefaultBase, None, false, None, DefaultOwner, DefaultSeal, DefaultAgent, None, false, None, Some(false))

  // ----------------------------------------------------------------- 2. rental status

  datatype UnitInfo = UnitInfo(unitNumber: string, exclusiveArea: Option<real>, areaMatch: bool, status: DocumentStatus)

  datatype RentalStatus = RentalStatus(base: DocBase, units: seq<UnitInfo>, mismatchedUnits: seq<string>)

  const DefaultRentalStatus := RentalStatus(DefaultBase, [], [])

  // ----------------------------------------------------------------- 3. power of attorney

  datatype DelegationInfo = DelegationInfo(name: Option<string>, personalInfoComplete: bool, sealValid: bool)

  const DefaultDelegation := DelegationInfo(None, false, false)

  datatype PowerOfAttorney = PowerOfAttorney(
    base: DocBase, writtenDate: Option<string>, location: Option<string>, landArea: Option<real>,
    landAreaMatch: bool, delegator: DelegationInfo, delegatee: DelegationInfo, isAfterAnnouncement: bool)

  const DefaultPowerOfAttorney := PowerOfAttorney(
    DefaultBase, None, None, None, false, DefaultDelegation, DefaultDelegation, false)

  // ----------------------------------------------------------------- 4. identity, seal certificate

  datatype IdentityDocument = IdentityDocument(
    base: DocBase, documentType: Option<string>, nameOnDocument: Option<string>, nameMatch: bool)

  /** No `exists` field of its own: `merge_results` always keeps the first file's copy. */
  datatype OwnerIdentityDocuments = OwnerIdentityDocuments(
    sealCertificate: DocBase, sealCertificateIssueDate: Option<string>,
    identityDocuments: seq<IdentityDocument>, ownerCount: int, allIdsSubmitted: bool)

  const DefaultOwnerIdentity := OwnerIdentityDocuments(DefaultBase, None, [], 1, false)

  // ----------------------------------------------------------------- 5. corporation

  datatype CorporateDocuments = CorporateDocuments(
    isCorporation: bool, businessRegistration: DocBase, corporateSealCertificate: DocBase,
    corporateRegistry: DocBase, executiveIds: seq<IdentityDocument>, executiveCount: int,
    allExecutiveIdsSubmitted: bool, contractLimitConsent: DocBase, allExecutivesSigned: bool)

  const DefaultCorporate := CorporateDocuments(
    false, DefaultBase, DefaultBase, DefaultBase, [], 0, false, DefaultBase, false)

  // ----------------------------------------------------------------- 6. consent, pledge, LH staff

  datatype ConsentForm = ConsentForm(
    base: DocBase, ownerWrittenDate: Option<string>, ownerSigned: bool, ownerSealValid: bool,
    ownerDateValid: bool, agentWrittenDate: Option<string>, agentSigned: bool, agentSealValid: bool,
    agentDateValid: bool)

  const DefaultConsent := ConsentForm(DefaultBase, None, true, true, true, None, true, true, true)

  datatype IntegrityPledge = IntegrityPledge(
    base: DocBase, ownerWrittenDate: Option<string>, ownerSubmitted: bool, ownerSealValid: bool,
    ownerIdNumberValid: bool, agentSubmitted: bool, agentSealValid: bool, realtorSubmitted: bool,
    realtorSealValid: bool, corporationIdTypeCorrect: bool)

  const DefaultPledge := IntegrityPledge(DefaultBase, None, true, true, true, true, true, true, true, true)

  datatype LHEmployeeConfirmation = LHEmployeeConfirmation(
    base: DocBase, writtenDate: Option<string>, ownerNameMatch: bool, sealValid: bool, dateValid: bool)

  const DefaultLHConfirmation := LHEmployeeConfirmation(DefaultBase, None, true, true, true)

  // ----------------------------------------------------------------- 7. realtor

  datatype RealtorDocuments = RealtorDocuments(
    isRealtorAgent: bool, officeRegistration: DocBase, businessRegistration: DocBase,
    sealMatchWithApplication: bool)

  const DefaultRealtor := RealtorDocuments(false, DefaultBase, DefaultBase, false)

  // ----------------------------------------------------------------- 8. building ledger

  datatype BuildingLedgerSummary = BuildingLedgerSummary(base: DocBase, required: bool, buildingCount: int)

  const DefaultSummary := BuildingLedgerSummary(DefaultBase, false, 1)

  datatype BuildingLedgerTitle = BuildingLedgerTitle(
    base: DocBase, approvalDate: Option<string>, seismicDesign: Option<bool>,
    outdoorParking: Option<int>, indoorParking: Option<int>, mechanicalParking: Option<int>,
    hasBasement: Option<bool>, basementFloors: Option<int>, hasBasementUnits: Option<bool>,
    hasElevator: Option<bool>, elevatorCount: Option<int>, hasWorkerLivingFacility: Option<bool>,
    hasPiloti: Option<bool>)

  const DefaultTitle := BuildingLedgerTitle(DefaultBase, None, None, None, None, None, None, None, None, None, None, None, None)

  datatype ExclusiveUnit = ExclusiveUnit(unitNumber: string, exclusiveArea: real, areaValid: bool, status: DocumentStatus)

  datatype BuildingLedgerExclusive = BuildingLedgerExclusive(
    base: DocBase, units: seq<ExclusiveUnit>, invalidAreaUnits: seq<string>,
    minExclusiveArea: Option<real>, maxExclusiveArea: Option<real>,
    minAreaUnitNumbers: seq<string>, maxAreaUnitNumbers: seq<string>)

  const DefaultExclusive := BuildingLedgerExclusive(DefaultBase, [], [], None, None, [], [])

  datatype BuildingLayoutPlan = BuildingLayoutPlan(
    base: DocBase, hasSitePlan: bool, hasAllFloorPlans: bool, hasUnitPlans: bool,
    isGovernmentIssued: bool, missingFloors: seq<string>, missingUnits: seq<string>)

  const DefaultLayout := BuildingLayoutPlan(DefaultBase, false, false, false, false, [], [])

  // ----------------------------------------------------------------- 9. land

  datatype LandLedger = LandLedger(
    base: DocBase, landArea: Option<real>, landAreaMatch: bool, isAfterAnnouncement: bool,
    landCategory: Option<string>, useRestrictions: seq<string>, totalParcels: int,
    submittedParcels: int, allParcelsSubmitted: bool, missingParcels: seq<string>)

  const DefaultLandLedger := LandLedger(DefaultBase, None, false, false, None, [], 0, 0, false, [])

  datatype LandUsePlan = LandUsePlan(
    base: DocBase, landArea: Option<real>, landAreaMatch: bool, totalParcels: int,
    submittedParcels: int, allParcelsSubmitted: bool, missingParcels: seq<string>,
    isRedevelopmentZone: bool, isMaintenanceZone: bool, isPublicHousingZone: bool,
    isHousingDevelopmentZone: bool, hasExclusionZone: bool, landUseRegulations: seq<string>)

  const DefaultLandUsePlan := LandUsePlan(DefaultBase, None, false, 0, 0, false, [], false, false, false, false, false, [])

  datatype LandRegistry = LandRegistry(
    base: DocBase, landArea: Option<real>, totalParcels: int, submittedParcels: int,
    allParcelsSubmitted: bool, missingParcels: seq<string>)

  const DefaultLandRegistry := LandRegistry(DefaultBase, None, 0, 0, false, [])

  // ----------------------------------------------------------------- 10. building registry

  datatype BuildingRegistry = BuildingRegistry(
    base: DocBase, totalUnits: int, submittedUnits: int, allUnitsSubmitted: bool,
    missingUnits: seq<string>, hasMortgage: bool, mortgageDetails: seq<string>, hasSeizure: bool,
    seizureDetails: seq<string>, hasTrust: bool, trustDetails: seq<string>,
    isPrivateRentalStated: Option<bool>)

  const DefaultBuildingRegistry := BuildingRegistry(DefaultBase, 0, 0, false, [], false, [], false, [], false, [], None)

  // ----------------------------------------------------------------- 11. drawings, certificates, trust

  datatype AsBuiltDrawing = AsBuiltDrawing(
    base: DocBase, materialsExtracted: bool, exteriorFinishMaterial: Option<string>,
    exteriorInsulationMaterial: Option<string>, pilotiFinishMaterial: Option<string>,
    pilotiInsulationMaterial: Option<string>)

  const DefaultAsBuilt := AsBuiltDrawing(DefaultBase, false, None, None, None, None)

  datatype TestCertificateDelivery = TestCertificateDelivery(
    base: DocBase, hasHeatReleaseTest: bool, hasGasToxicityTest: bool,
    hasThermalConductivityTest: bool, hasDeliveryConfirmation: bool, stoneExteriorException: bool,
    materialsWithTestCert: seq<string>, materialsWithDeliveryConf: seq<string>,
    detectedTests: seq<string>, testCertFileExists: bool, deliveryConfFileExists: bool)

  const DefaultTestCert := TestCertificateDelivery(DefaultBase, false, false, false, false, false, [], [], [], false, false)

  datatype TrustDocuments = TrustDocuments(
    trustRequired: bool, trustContract: DocBase, saleAuthorityConfirmation: DocBase,
    allPartiesSigned: bool, allSealsValid: bool)

  const DefaultTrust := TrustDocuments(false, DefaultBase, DefaultBase, false, false)

  // ----------------------------------------------------------------- result

  datatype SupplementaryDocument = SupplementaryDocument(documentName: string, reason: string, ruleNumber: int)

  datatype DocumentDateInfo = DocumentDateInfo(documentName: string, dateType: string, dateValue: Option<string>, isValid: bool)

  datatype ReviewResult = ReviewResult(
    reviewDate: string, propertyAddress: Option<string>, parcelNumber: Option<string>,
    applicantType: ApplicantType, applicantTypeDisplay: Option<string>, agentType: AgentType,
    announcementDate: Option<string>, correctionAnnouncementDate: Option<string>,
    documentDates: seq<DocumentDateInfo>,
    application: HousingSaleApplication, rentalStatus: RentalStatus,
    powerOfAttorney: PowerOfAttorney, ownerIdentity: OwnerIdentityDocuments,
    corporate: CorporateDocuments, consent: ConsentForm, pledge: IntegrityPledge,
    lhConfirmation: LHEmployeeConfirmation, realtor: RealtorDocuments,
    ledgerSummary: BuildingLedgerSummary, ledgerTitle: BuildingLedgerTitle,
    ledgerExclusive: BuildingLedgerExclusive, layoutPlan: BuildingLayoutPlan,
    landLedger: LandLedger, landUsePlan: LandUsePlan, landRegistry: LandRegistry,
    buildingRegistry: BuildingRegistry, trust: TrustDocuments,
    asBuilt: AsBuiltDrawing, testCert: TestCertificateDelivery,
    supplementaryDocuments: seq<SupplementaryDocument>, totalDocumentsChecked: int,
    validDocumentsCount: int, supplementaryCount: int, isReviewComplete: bool,
    reviewSummary: string)

  /** `PublicHousingReviewResult(review_date=..., announcement_date=...)` with every other field at its default. */
  function NewReviewResult(reviewDate: string, announcementDate: Option<string>): (r: ReviewResult)
    ensures r.reviewDate == reviewDate && r.announcementDate == announcementDate
    ensures r.propertyAddress == None && r.parcelNumber == None
    ensures r.applicantType == Individual && r.agentType == NoAgent
    ensures !r.application.base.present && r.application.base.status == Missing && r.application.base.issues == []
    ensures r.application.approvalDateMatch == Some(false) && !r.application.landAreaMatch
    ensures r.consent.ownerSigned && r.consent.ownerSealValid && r.consent.ownerDateValid
    ensures r.consent.agentSigned && r.consent.agentSealValid && r.consent.agentDateValid
    ensures r.pledge.ownerSubmitted && r.pledge.ownerSealValid && r.pledge.ownerIdNumberValid
    ensures r.lhConfirmation.ownerNameMatch && r.lhConfirmation.sealValid && r.lhConfirmation.dateValid
    ensures !r.landLedger.landAreaMatch && !r.landUsePlan.landAreaMatch
    ensures r.supplementaryDocuments == [] && r.supplementaryCount == 0 && !r.isReviewComplete
  {
    ReviewResult(
      reviewDate, None, None, Individual, None, NoAgent, announcementDate, None, [],
      DefaultApplication, DefaultRentalStatus, DefaultPowerOfAttorney, DefaultOwnerIdentity,
      DefaultCorporate, DefaultConsent, DefaultPledge, DefaultLHConfirmation, DefaultRealtor,
      DefaultSummary, DefaultTitle, DefaultExclusive, DefaultLayout, DefaultLandLedger,
      DefaultLandUsePlan, DefaultLandRegistry, DefaultBuildingRegistry, DefaultTrust,
      DefaultAsBuilt, DefaultTestCert, [], 0, 0, 0, false, "")
  }

  /** Every document record that has an `exists` flag starts absent, MISSING and without issues. */
  predicate FreshBase(b: DocBase) { !b.present && b.status == Missing && b.issues == [] }

  lemma DefaultDocumentsAbsent(r: ReviewResult, reviewDate: string, ann: Option<string>)
    requires r == NewReviewResult(reviewDate, ann)
    ensures FreshBase(r.application.base) && FreshBase(r.rentalStatus.base)
    ensures FreshBase(r.powerOfAttorney.base) && FreshBase(r.consent.base)
    ensures FreshBase(r.pledge.base) && FreshBase(r.lhConfirmation.base)
    ensures FreshBase(r.ledgerSummary.base) && FreshBase(r.ledgerTitle.base)
    ensures FreshBase(r.ledgerExclusive.base) && FreshBase(r.layoutPlan.base)
    ensures FreshBase(r.landLedger.base) && FreshBase(r.landUsePlan.base)
    ensures FreshBase(r.landRegistry.base) && FreshBase(r.buildingRegistry.base)
    ensures FreshBase(r.asBuilt.base) && FreshBase(r.testCert.base)
    ensures FreshBase(r.ownerIdentity.sealCertificate) && FreshBase(r.corporate.businessRegistration)
    ensures FreshBase(r.trust.trustContract) && FreshBase(r.realtor.officeRegistration)
  {
  }

  // ----------------------------------------------------------------- field list

  /** `PUBLIC_HOUSING_DOC_FIELDS`, in order. */
  const DocFields: seq<string> := [
    "housing_sale_application", "rental_status", "power_of_attorney", "owner_identity",
    "corporate_documents", "consent_form", "integrity_pledge", "lh_employee_confirmation",
    "realtor_documents", "building_ledger_summary", "building_ledger_title",
    "building_ledger_exclusive", "building_layout_plan", "land_ledger", "land_use_plan",
    "land_registry", "building_registry", "trust_documents",
    "as_built_drawing", "test_certificate_delivery"]

  /** The listed records whose class has no `exists` attribute. */
  const FieldsWithoutExists: set<string> := {"owner_identity", "corporate_documents", "realtor_documents", "trust_documents"}

  // ----------------------------------------------------------------- merge_results

  /** Python truthiness of an optional string: present and not "". */
  predicate NonEmpty(v: Option<string>) { v.Some? && v.value != [] }

  /** `bool(v and str(v).strip())` */
  predicate Filled(v: Option<string>) { v.Some? && Strip(v.value) != [] }

  /** Number of non-blank owner fields (0..5). */
  function OwnerScore(o: OwnerInfo): (n: nat)
    ensures n <= 5
    ensures n == 0 <==> !Filled(o.name) && !Filled(o.birthDate) && !Filled(o.address) && !Filled(o.phone) && !Filled(o.email)
  {
    (if Filled(o.name) then 1 else 0) + (if Filled(o.birthDate) then 1 else 0)
    + (if Filled(o.address) then 1 else 0) + (if Filled(o.phone) then 1 else 0)
    + (if Filled(o.email) then 1 else 0)
  }

  /** The first element satisfying `p`, or `fallback` when there is none. */
  function FirstWhere<T>(xs: seq<T>, p: T -> bool, fallback: T): T
  {
    if xs == [] then fallback else if p(xs[0]) then xs[0] else FirstWhere(xs[1..], p, fallback)
  }

  lemma {:induction false} FirstWhereSpec<T>(xs: seq<T>, p: T -> bool, fallback: T)
    ensures (forall i :: 0 <= i < |xs| ==> !p(xs[i])) ==> FirstWhere(xs, p, fallback) == fallback
    ensures (exists i :: 0 <= i < |xs| && p(xs[i])) ==>
      exists i :: 0 <= i < |xs| && p(xs[i]) && FirstWhere(xs, p, fallback) == xs[i]
        && forall j :: 0 <= j < i ==> !p(xs[j])
  {
    if xs != [] && !p(xs[0]) {
      FirstWhereSpec(xs[1..], p, fallback);
      if exists i :: 0 <= i < |xs| && p(xs[i]) {
        var i :| 0 <= i < |xs| && p(xs[i]);
        assert p(xs[1..][i - 1]);
        var k :| 0 <= k < |xs| - 1 && p(xs[1..][k]) && FirstWhere(xs[1..], p, fallback) == xs[1..][k]
          && forall j :: 0 <= j < k ==> !p(xs[1..][j]);
        assert forall j :: 1 <= j < k + 1 ==> xs[j] == xs[1..][j - 1];
        assert p(xs[k + 1]) && FirstWhere(xs, p, fallback) == xs[k + 1];
      }
    } else if xs != [] {
      assert p(xs[0]);
    }
  }

  /** Scan for the first element satisfying `p` (the `for r in results: ... break` loops). */
  method FirstPresent<T>(xs: seq<T>, p: T -> bool, fallback: T) returns (r: T)
    ensures r == FirstWhere(xs, p, fallback)
  {
    var i := 0;
    while i < |xs|
      invariant 0 <= i <= |xs|
      invariant FirstWhere(xs, p, fallback) == FirstWhere(xs[i..], p, fallback)
    {
      assert xs[i..][1..] == xs[i + 1..];
      if p(xs[i]) {
        return xs[i];
      }
      i := i + 1;
    }
    r := fallback;
  }

  /**
   * The `best_score` / `best_result` fold: a present application replaces the current
   * choice only when its owner score is strictly higher.
   */
  function BestFrom(apps: seq<HousingSaleApplication>, bestScore: int, best: HousingSaleApplication): HousingSaleApplication
  {
    if apps == [] then best
    else if apps[0].base.present && OwnerScore(apps[0].owner) > bestScore
    then BestFrom(apps[1..], OwnerScore(apps[0].owner), apps[0])
    else BestFrom(apps[1..], bestScore, best)
  }

  function ScoreOf(a: HousingSaleApplication): int
  {
    if a.base.present then OwnerScore(a.owner) else -1
  }

  /** Highest owner score among the present applications; -1 when none is present. */
  function MaxScore(apps: seq<HousingSaleApplication>): (m: int)
    ensures m >= -1
    ensures forall i :: 0 <= i < |apps| ==> ScoreOf(apps[i]) <= m
    ensures m >= 0 ==> exists i :: 0 <= i < |apps| && ScoreOf(apps[i]) == m
  {
    if apps == [] then -1
    else
      var t := MaxScore(apps[1..]);
      assert forall i :: 1 <= i < |apps| ==> apps[i] == apps[1..][i - 1];
      if ScoreOf(apps[0]) >= t then ScoreOf(apps[0]) else t
  }

  /** Reference definition: the earliest application whose score is `m`. */
  function FirstWithScore(apps: seq<HousingSaleApplication>, m: int, fallback: HousingSaleApplication): HousingSaleApplication
  {
    if apps == [] then fallback
    else if ScoreOf(apps[0]) == m then apps[0]
    else FirstWithScore(apps[1..], m, fallback)
  }

  lemma {:induction false} FirstWithScoreFallback(apps: seq<HousingSaleApplication>, m: int, f1: HousingSaleApplication, f2: HousingSaleApplication)
    requires exists i :: 0 <= i < |apps| && ScoreOf(apps[i]) == m
    ensures FirstWithScore(apps, m, f1) == FirstWithScore(apps, m, f2)
  {
    if ScoreOf(apps[0]) != m {
      var i :| 0 <= i < |apps| && ScoreOf(apps[i]) == m;
      assert apps[1..][i - 1] == apps[i];
      FirstWithScoreFallback(apps[1..], m, f1, f2);
    }
  }

  /**
   * The strict-improvement fold keeps its current choice when nothing scores higher and
   * otherwise ends on the earliest application with the maximal score.
   */
  lemma {:induction false} BestFromIsFirstMax(apps: seq<HousingSaleApplication>, s: int, b: HousingSaleApplication)
    requires s >= -1
    ensures s >= MaxScore(apps) ==> BestFrom(apps, s, b) == b
    ensures s < MaxScore(apps) ==> BestFrom(apps, s, b) == FirstWithScore(apps, MaxScore(apps), b)
  {
    if apps != [] {
      var a, t := apps[0], apps[1..];
      var m, mt := MaxScore(apps), MaxScore(t);
      if a.base.present && OwnerScore(a.owner) > s {
        var sa := OwnerScore(a.owner);
        BestFromIsFirstMax(t, sa, a);
        if sa < mt {
          FirstWithScoreFallback(t, mt, a, b);
        }
      } else {
        BestFromIsFirstMax(t, s, b);
      }
    }
  }

  /** The `best_score` / `best_result` loop over the applications. */
  method SelectApplication(apps: seq<HousingSaleApplication>, fallback: HousingSaleApplication)
    returns (r: HousingSaleApplication)
    ensures r == BestFrom(apps, -1, fallback)
  {
    var bestScore: int := -1;
    var best := fallback;
    var i := 0;
    while i < |apps|
      invariant 0 <= i <= |apps|
      invariant BestFrom(apps[i..], bestScore, best) == BestFrom(apps, -1, fallback)
    {
      assert apps[i..][1..] == apps[i + 1..];
      if apps[i].base.present {
        var score := OwnerScore(apps[i].owner);
        if score > bestScore {
          bestScore := score;
          best := apps[i];
        }
      }
      i := i + 1;
    }
    assert apps[i..] == [];
    r := best;
  }

  /** One field of every result, in file order. */
  function Column<T>(results: seq<ReviewResult>, get: ReviewResult -> T): (c: seq<T>)
    ensures |c| == |results|
    ensures forall i :: 0 <= i < |results| ==> c[i] == get(results[i])
  {
    if results == [] then [] else [get(results[0])] + Column(results[1..], get)
  }

  /** `next((v for v in vs if v), None)` over optional strings. */
  function FirstTruthy(vs: seq<Option<string>>): (r: Option<string>)
    ensures r.Some? ==> r.value != [] && r in vs
    ensures r.None? ==> forall v :: v in vs ==> v.None? || v.value == []
  {
    if vs == [] then None
    else if vs[0].Some? && vs[0].value != [] then vs[0]
    else FirstTruthy(vs[1..])
  }

  predicate AppPresent(a: HousingSaleApplication) { a.base.present }
  predicate RentalPresent(d: RentalStatus) { d.base.present }
  predicate PoaPresent(d: PowerOfAttorney) { d.base.present }
  predicate ConsentPresent(d: ConsentForm) { d.base.present }
  predicate PledgePresent(d: IntegrityPledge) { d.base.present }
  predicate LHPresent(d: LHEmployeeConfirmation) { d.base.present }
  predicate SummaryPresent(d: BuildingLedgerSummary) { d.base.present }
  predicate TitlePresent(d: BuildingLedgerTitle) { d.base.present }
  predicate ExclusivePresent(d: BuildingLedgerExclusive) { d.base.present }
  predicate LayoutPresent(d: BuildingLayoutPlan) { d.base.present }
  predicate LandLedgerPresent(d: LandLedger) { d.base.present }
  predicate LandUsePresent(d: LandUsePlan) { d.base.present }
  predicate LandRegistryPresent(d: LandRegistry) { d.base.present }
  predicate BuildingRegistryPresent(d: BuildingRegistry) { d.base.present }
  predicate AsBuiltPresent(d: AsBuiltDrawing) { d.base.present }
  predicate TestCertPresent(d: TestCertificateDelivery) { d.base.present }

  function Apps(results: seq<ReviewResult>): seq<HousingSaleApplication> { Column(results, (r: ReviewResult) => r.application) }

  /** What `merge_results` computes for the meta fields. */
  function MergedMeta(results: seq<ReviewResult>, reviewDate: string, announcementDate: Option<string>): ReviewResult
    requires results != []
  {
    results[0].(
      reviewDate := reviewDate,
      announcementDate := if announcementDate.Some? && announcementDate.value != [] then announcementDate else results[0].announcementDate,
      propertyAddress := FirstTruthy(Column(results, (r: ReviewResult) => r.propertyAddress)),
      parcelNumber := FirstTruthy(Column(results, (r: ReviewResult) => r.parcelNumber)))
  }

  /** The per-document choices of `merge_results`, applied to `m`. */
  function MergedDocs(m: ReviewResult, results: seq<ReviewResult>): ReviewResult
    requires results != []
  {
    var first := results[0];
    m.(
      application := BestFrom(Apps(results), -1, first.application),
      rentalStatus := FirstWhere(Column(results, (r: ReviewResult) => r.rentalStatus), RentalPresent, first.rentalStatus),
      powerOfAttorney := FirstWhere(Column(results, (r: ReviewResult) => r.powerOfAttorney), PoaPresent, first.powerOfAttorney),
      consent := FirstWhere(Column(results, (r: ReviewResult) => r.consent), ConsentPresent, first.consent),
      pledge := FirstWhere(Column(results, (r: ReviewResult) => r.pledge), PledgePresent, first.pledge),
      lhConfirmation := FirstWhere(Column(results, (r: ReviewResult) => r.lhConfirmation), LHPresent, first.lhConfirmation),
      ledgerSummary := FirstWhere(Column(results, (r: ReviewResult) => r.ledgerSummary), SummaryPresent, first.ledgerSummary),
      ledgerTitle := FirstWhere(Column(results, (r: ReviewResult) => r.ledgerTitle), TitlePresent, first.ledgerTitle),
      ledgerExclusive := FirstWhere(Column(results, (r: ReviewResult) => r.ledgerExclusive), ExclusivePresent, first.ledgerExclusive),
      layoutPlan := FirstWhere(Column(results, (r: ReviewResult) => r.layoutPlan), LayoutPresent, first.layoutPlan),
      landLedger := FirstWhere(Column(results, (r: ReviewResult) => r.landLedger), LandLedgerPresent, first.landLedger),
      landUsePlan := FirstWhere(Column(results, (r: ReviewResult) => r.landUsePlan), LandUsePresent, first.landUsePlan),
      landRegistry := FirstWhere(Column(results, (r: ReviewResult) => r.landRegistry), LandRegistryPresent, first.landRegistry),
      buildingRegistry := FirstWhere(Column(results, (r: ReviewResult) => r.buildingRegistry), BuildingRegistryPresent, first.buildingRegistry),
      asBuilt := FirstWhere(Column(results, (r: ReviewResult) => r.asBuilt), AsBuiltPresent, first.asBuilt),
      testCert := FirstWhere(Column(results, (r: ReviewResult) => r.testCert), TestCertPresent, first.testCert))
  }

  /** What `merge_results` computes. */
  function Merged(results: seq<ReviewResult>, reviewDate: string, announcementDate: Option<string>): ReviewResult
  {
    if results == [] then NewReviewResult(reviewDate, announcementDate)
    else MergedDocs(MergedMeta(results, reviewDate, announcementDate), results)
  }

  /** `PublicHousingReviewResult.merge_results(results, review_date, announcement_date)` */
  method MergeResults(results: seq<ReviewResult>, reviewDate: string, announcementDate: Option<string>)
    returns (merged: ReviewResult)
    ensures merged == Merged(results, reviewDate, announcementDate)
  {
    if results == [] {
      return NewReviewResult(reviewDate, announcementDate);
    }
    var first := results[0];
    merged := MergedMeta(results, reviewDate, announcementDate);
    // owner_identity, corporate_documents, realtor_documents, trust_documents have no
    // `exists`: the first file's copy stays
    var app := SelectApplication(Apps(results), first.application);
    var rental := FirstPresent(Column(results, (r: ReviewResult) => r.rentalStatus), RentalPresent, first.rentalStatus);
    var poa := FirstPresent(Column(results, (r: ReviewResult) => r.powerOfAttorney), PoaPresent, first.powerOfAttorney);
    var consent := FirstPresent(Column(results, (r: ReviewResult) => r.consent), ConsentPresent, first.consent);
    var pledge := FirstPresent(Column(results, (r: ReviewResult) => r.pledge), PledgePresent, first.pledge);
    var lh := FirstPresent(Column(results, (r: ReviewResult) => r.lhConfirmation), LHPresent, first.lhConfirmation);
    var summary := FirstPresent(Column(results, (r: ReviewResult) => r.ledgerSummary), SummaryPresent, first.ledgerSummary);
    var title := FirstPresent(Column(results, (r: ReviewResult) => r.ledgerTitle), TitlePresent, first.ledgerTitle);
    var excl := FirstPresent(Column(results, (r: ReviewResult) => r.ledgerExclusive), ExclusivePresent, first.ledgerExclusive);
    var layout := FirstPresent(Column(results, (r: ReviewResult) => r.layoutPlan), LayoutPresent, first.layoutPlan);
    var ledger := FirstPresent(Column(results, (r: ReviewResult) => r.landLedger), LandLedgerPresent, first.landLedger);
    var plan := FirstPresent(Column(results, (r: ReviewResult) => r.landUsePlan), LandUsePresent, first.landUsePlan);
    var lreg := FirstPresent(Column(results, (r: ReviewResult) => r.landRegistry), LandRegistryPresent, first.landRegistry);
    var breg := FirstPresent(Column(results, (r: ReviewResult) => r.buildingRegistry), BuildingRegistryPresent, first.buildingRegistry);
    var drawing := FirstPresent(Column(results, (r: ReviewResult) => r.asBuilt), AsBuiltPresent, first.asBuilt);
    var cert := FirstPresent(Column(results, (r: ReviewResult) => r.testCert), TestCertPresent, first.testCert);
    merged := merged.(application := app, rentalStatus := rental, powerOfAttorney := poa, consent := consent,
      pledge := pledge, lhConfirmation := lh, ledgerSummary := summary, ledgerTitle := title,
      ledgerExclusive := excl, layoutPlan := layout, landLedger := ledger, landUsePlan := plan,
      landRegistry := lreg, buildingRegistry := breg, asBuilt := drawing, testCert := cert);
  }

  // ----------------------------------------------------------------- merge laws

  /** Merging no files gives a fresh result carrying only the two dates. */
  lemma MergeEmpty(reviewDate: string, ann: Option<string>)
    ensures Merged([], reviewDate, ann) == NewReviewResult(reviewDate, ann)
  {
  }

  /**
   * Meta fields: the review date is the given one, the announcement date the given one
   * unless empty, the address the first non-empty one across files, and the records
   * without an `exists` flag are the first file's.
   */
  lemma MergeMeta(results: seq<ReviewResult>, reviewDate: string, ann: Option<string>)
    requires results != []
    ensures var m := Merged(results, reviewDate, ann);
      m.reviewDate == reviewDate
      && (ann.Some? && ann.value != [] ==> m.announcementDate == ann)
      && ((ann.None? || ann.value == []) ==> m.announcementDate == results[0].announcementDate)
      && (m.propertyAddress.Some? ==> m.propertyAddress.value != [] && exists i :: 0 <= i < |results| && results[i].propertyAddress == m.propertyAddress)
      && (m.propertyAddress.None? ==> forall i :: 0 <= i < |results| ==> results[i].propertyAddress.None? || results[i].propertyAddress.value == [])
      && m.ownerIdentity == results[0].ownerIdentity && m.corporate == results[0].corporate
      && m.realtor == results[0].realtor && m.trust == results[0].trust
  {
    var addrs := Column(results, (r: ReviewResult) => r.propertyAddress);
    var m := Merged(results, reviewDate, ann);
    assert m.propertyAddress == FirstTruthy(addrs);
    if m.propertyAddress.Some? {
      assert m.propertyAddress in addrs;
      var i :| 0 <= i < |addrs| && addrs[i] == m.propertyAddress;
      assert results[i].propertyAddress == m.propertyAddress;
    } else {
      assert forall i :: 0 <= i < |results| ==> addrs[i] == results[i].propertyAddress;
    }
  }

  /**
   * Each document with an `exists` flag (rental status shown; the others use the same
   * `FirstWhere`) comes from the earliest file where it exists, or from the first file.
   */
  lemma MergeRentalFirstPresent(results: seq<ReviewResult>, reviewDate: string, ann: Option<string>)
    requires results != []
    ensures var m := Merged(results, reviewDate, ann);
      ((forall i :: 0 <= i < |results| ==> !results[i].rentalStatus.base.present) ==> m.rentalStatus == results[0].rentalStatus)
      && ((exists i :: 0 <= i < |results| && results[i].rentalStatus.base.present) ==>
        exists i :: 0 <= i < |results| && m.rentalStatus == results[i].rentalStatus && results[i].rentalStatus.base.present
          && forall j :: 0 <= j < i ==> !results[j].rentalStatus.base.present)
  {
    var xs := Column(results, (r: ReviewResult) => r.rentalStatus);
    var chosen := FirstWhere(xs, RentalPresent, results[0].rentalStatus);
    assert Merged(results, reviewDate, ann).rentalStatus == chosen;
    FirstWhereColumn(results, (r: ReviewResult) => r.rentalStatus, RentalPresent, results[0].rentalStatus);
  }

  /** `FirstWhere` over a column of the results, stated on the results themselves. */
  lemma FirstWhereColumn<T>(results: seq<ReviewResult>, get: ReviewResult -> T, p: T -> bool, fallback: T)
    ensures ((forall i :: 0 <= i < |results| ==> !p(get(results[i]))) ==> FirstWhere(Column(results, get), p, fallback) == fallback)
      && ((exists i :: 0 <= i < |results| && p(get(results[i]))) ==>
        exists i :: 0 <= i < |results| && FirstWhere(Column(results, get), p, fallback) == get(results[i]) && p(get(results[i]))
          && forall j :: 0 <= j < i ==> !p(get(results[j])))
  {
    FirstWhereSpec(Column(results, get), p, fallback);
  }

  /**
   * The application is the first file's when it exists nowhere; otherwise it is the
   * earliest existing one with the most non-blank owner fields.
   */
  lemma MergeApplicationBest(results: seq<ReviewResult>, reviewDate: string, ann: Option<string>)
    requires results != []
    ensures var m := Merged(results, reviewDate, ann);
      var apps := Apps(results);
      ((forall i :: 0 <= i < |results| ==> !results[i].application.base.present) ==> m.application == results[0].application)
      && ((exists i :: 0 <= i < |results| && results[i].application.base.present) ==>
            m.application == FirstWithScore(apps, MaxScore(apps), results[0].application)
            && m.application.base.present)
  {
    var apps := Apps(results);
    var m := Merged(results, reviewDate, ann);
    assert m.application == BestFrom(apps, -1, results[0].application);
    BestFromIsFirstMax(apps, -1, results[0].application);
    if exists i :: 0 <= i < |results| && results[i].application.base.present {
      var i :| 0 <= i < |results| && results[i].application.base.present;
      assert ScoreOf(apps[i]) >= 0;
      FirstWithScorePresent(apps, MaxScore(apps), results[0].application);
    } else {
      assert forall i :: 0 <= i < |apps| ==> ScoreOf(apps[i]) == -1;
    }
  }

  lemma {:induction false} FirstWithScorePresent(apps: seq<HousingSaleApplication>, m: int, fallback: HousingSaleApplication)
    requires m >= 0 && exists i :: 0 <= i < |apps| && ScoreOf(apps[i]) == m
    ensures FirstWithScore(apps, m, fallback).base.present
    ensures OwnerScore(FirstWithScore(apps, m, fallback).owner) == m
  {
    if ScoreOf(apps[0]) != m {
      var i :| 0 <= i < |apps| && ScoreOf(apps[i]) == m;
      assert apps[1..][i - 1] == apps[i];
      FirstWithScorePresent(apps[1..], m, fallback);
    }
  }
}
