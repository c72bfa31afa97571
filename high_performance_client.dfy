/**
 * `HighPerformanceGeminiClient`: the merge of per-page analysis results into one record per
 * document category, the non-None-wins deep merge it uses, and the conversion of the
 * merged data into a review result. The page analyses themselves are inputs.
 */
module HighPerformanceClient {
  import opened Wrappers
  import opened Values
  import opened DataModels
  import HQ = HighQualityProcessor

  // ------------------------------------------------------------------ deep merge

  function NonNullKeys(d: Dict): set<string>
  {
    set k | k in d && d[k] != Null
  }

  /**
   * `_deep_merge(base, update)`: a fresh dict in which the update's non-None values win,
   * dicts on both sides merge recursively, and None never overrides.
   */
  function DeepMerge(base: Dict, update: Dict): (r: Dict)
    decreases Obj(update)
    ensures r.Keys == base.Keys + NonNullKeys(update)
    ensures forall k :: k in base && (k !in update || update[k] == Null) ==> r[k] == base[k]
    ensures forall k :: k in update && update[k] != Null && !(k in base && base[k].Obj? && update[k].Obj?) ==>
      r[k] == update[k]
    ensures forall k :: k in base && k in update && base[k].Obj? && update[k].Obj? ==>
      r[k].Obj? && r[k].fields.Keys == base[k].fields.Keys + NonNullKeys(update[k].fields)
  {
    map k | k in base.Keys + NonNullKeys(update) ::
      if k in update && k in base && base[k].Obj? && update[k].Obj? then Obj(DeepMerge(base[k].fields, update[k].fields))
      else if k in update && update[k] != Null then update[k]
      else base[k]
  }

  /** Merging a dict into itself gives it back. */
  lemma {:induction false} DeepMergeSelf(d: Dict)
    ensures DeepMerge(d, d) == d
    decreases Obj(d)
  {
    forall k | k in d && d[k].Obj?
      ensures DeepMerge(d[k].fields, d[k].fields) == d[k].fields
    {
      DeepMergeSelf(d[k].fields);
    }
  }

  /** Applying the same page again changes nothing. */
  lemma {:induction false} DeepMergeIdempotent(base: Dict, update: Dict)
    ensures DeepMerge(DeepMerge(base, update), update) == DeepMerge(base, update)
    decreases Obj(update)
  {
    var once := DeepMerge(base, update);
    forall k | k in once && k in update && once[k].Obj? && update[k].Obj?
      ensures DeepMerge(once[k].fields, update[k].fields) == once[k].fields
    {
      if k in base && base[k].Obj? {
        DeepMergeIdempotent(base[k].fields, update[k].fields);
      } else {
        DeepMergeSelf(update[k].fields);
      }
    }
  }

  // ------------------------------------------------------------------ page merge

  datatype PageResult = PageResult(
    pageNumber: int,
    documentType: HQ.DocumentType,
    parsedData: Dict,
    confidence: real,
    error: Option<string>)

  /** One entry of `documents_found`. */
  datatype Found = Found(documentType: HQ.DocumentType, page: int, confidence: real)

  /**
   * The merged record: one dict per section key, the list of recognised pages, and the
   * `units` list of `building_ledger_exclusive` (None until a page supplies one).
   */
  datatype Merged = Merged(documentsFound: seq<Found>, sections: map<string, Dict>, units: Option<seq<Value>>)

  const SectionKeys: set<string> := {
    "housing_sale_application", "rental_status", "power_of_attorney", "consent_form",
    "integrity_pledge", "lh_employee_confirmation", "building_ledger_title", "land_ledger",
    "land_use_plan", "building_registry", "land_registry", "seal_certificate"}

  const Initial: Merged := Merged([], map k | k in SectionKeys :: map[], None)

  /** The section a page type merges into; both ledger title types share one. */
  function SectionOf(t: HQ.DocumentType): (s: Option<string>)
    ensures s.Some? ==> s.value in SectionKeys
    ensures t == HQ.BuildingLedgerSummary || t == HQ.BuildingLedgerTitle <==> s == Some("building_ledger_title")
    ensures t == HQ.Unknown || t == HQ.BuildingLedgerExclusive || t == HQ.IdCard ==> s.None?
  {
    if t == HQ.HousingSaleApplication then Some("housing_sale_application")
    else if t == HQ.RentalStatus then Some("rental_status")
    else if t == HQ.PowerOfAttorney then Some("power_of_attorney")
    else if t == HQ.ConsentForm then Some("consent_form")
    else if t == HQ.IntegrityPledge then Some("integrity_pledge")
    else if t == HQ.LhEmployeeConfirmation then Some("lh_employee_confirmation")
    else if t == HQ.BuildingLedgerTitle then Some("building_ledger_title")
    else if t == HQ.BuildingLedgerSummary then Some("building_ledger_title")
    else if t == HQ.LandLedger then Some("land_ledger")
    else if t == HQ.LandUsePlan then Some("land_use_plan")
    else if t == HQ.BuildingRegistry then Some("building_registry")
    else if t == HQ.LandRegistry then Some("land_registry")
    else if t == HQ.SealCertificate then Some("seal_certificate")
    else None
  }

  /** A page takes part when it has no error, some data, and no `parse_error` mark. */
  predicate Contributes(p: PageResult)
  {
    !(p.error.Some? && p.error.value != [])
    && p.parsedData != map[]
    && !Truthy(Get(p.parsedData, "parse_error"))
  }

  /** What a page merges into its section: its `building_info` for ledger titles, if any. */
  function Payload(p: PageResult): Value
  {
    if (p.documentType == HQ.BuildingLedgerTitle || p.documentType == HQ.BuildingLedgerSummary)
       && "building_info" in p.parsedData
    then p.parsedData["building_info"]
    else Obj(p.parsedData)
  }

  function SectionOrEmpty(m: Merged, s: string): Dict
  {
    if s in m.sections then m.sections[s] else map[]
  }

  function OrEmpty(units: Option<seq<Value>>): seq<Value>
  {
    if units.Some? then units.value else []
  }

  /**
   * One page of `_merge_results`. None when Python would raise: a `building_info` that is
   * not a dict, or `exclusive_units` that is not a list.
   */
  function Step(m: Merged, p: PageResult): Option<Merged>
  {
    if !Contributes(p) then Some(m)
    else
      var m1 := if p.documentType != HQ.Unknown then m.(documentsFound := m.documentsFound + [Found(p.documentType, p.pageNumber, p.confidence)]) else m;
      if p.documentType == HQ.BuildingLedgerExclusive then
        if "exclusive_units" !in p.parsedData then Some(m1)
        else if p.parsedData["exclusive_units"].Arr? then Some(m1.(units := Some(OrEmpty(m1.units) + p.parsedData["exclusive_units"].items)))
        else None
      else
        var s := SectionOf(p.documentType);
        if s.None? then Some(m1)
        else if !Payload(p).Obj? then None
        else Some(m1.(sections := m1.sections[s.value := DeepMerge(SectionOrEmpty(m1, s.value), Payload(p).fields)]))
  }

  /** The pages folded in order, from the empty record. */
  function MergedPages(pages: seq<PageResult>): Option<Merged>
  {
    if pages == [] then Some(Initial)
    else
      var prev := MergedPages(pages[..|pages| - 1]);
      if prev.None? then None else Step(prev.value, pages[|pages| - 1])
  }

  /** `_merge_results`: the section dicts built up page by page. */
  method MergeResults(pages: seq<PageResult>) returns (r: Option<Merged>)
    ensures r == MergedPages(pages)
  {
    var found: seq<Found> := [];
    var sections: map<string, Dict> := Initial.sections;
    var units: Option<seq<Value>> := None;
    var i := 0;
    while i < |pages|
      invariant 0 <= i <= |pages|
      invariant MergedPages(pages[..i]) == Some(Merged(found, sections, units))
    {
      var p := pages[i];
      assert pages[..i + 1][..i] == pages[..i];
      ghost var before := Merged(found, sections, units);
      if Contributes(p) {
        if p.documentType != HQ.Unknown {
          found := found + [Found(p.documentType, p.pageNumber, p.confidence)];
        }
        var data := p.parsedData;
        if p.documentType == HQ.BuildingLedgerExclusive {
          if "exclusive_units" in data {
            var extra := data["exclusive_units"];
            if !extra.Arr? {
              assert MergedPages(pages[..i + 1]).None?;
              FailureIsFinal(pages, i + 1);
              return None;
            }
            units := Some(OrEmpty(units) + extra.items);
          }
        } else {
          var s := SectionOf(p.documentType);
          if s.Some? {
            var payload := Payload(p);
            if !payload.Obj? {
              assert MergedPages(pages[..i + 1]).None?;
              FailureIsFinal(pages, i + 1);
              return None;
            }
            var current := if s.value in sections then sections[s.value] else map[];
            sections := sections[s.value := DeepMerge(current, payload.fields)];
          }
        }
      }
      assert Step(before, p) == Some(Merged(found, sections, units));
      i := i + 1;
    }
    assert pages[..i] == pages;
    r := Some(Merged(found, sections, units));
  }

  /** Once a page has raised, no later page can rescue the merge. */
  lemma {:induction false} FailureIsFinal(pages: seq<PageResult>, j: nat)
    requires j <= |pages| && MergedPages(pages[..j]).None?
    ensures MergedPages(pages).None?
    decreases |pages| - j
  {
    if j < |pages| {
      assert pages[..j + 1][..j] == pages[..j];
      FailureIsFinal(pages, j + 1);
    } else {
      assert pages[..j] == pages;
    }
  }

  /** The `documents_found` entries of the contributing, recognised pages, in order. */
  function FoundOf(pages: seq<PageResult>): (r: seq<Found>)
    ensures forall f :: f in r ==> f.documentType != HQ.Unknown
    ensures |r| <= |pages|
  {
    if pages == [] then []
    else
      var last := pages[|pages| - 1];
      FoundOf(pages[..|pages| - 1])
      + (if Contributes(last) && last.documentType != HQ.Unknown then [Found(last.documentType, last.pageNumber, last.confidence)] else [])
  }

  /** The exclusive units of the contributing exclusive-portion pages, concatenated in order. */
  function UnitsOf(pages: seq<PageResult>): seq<Value>
  {
    if pages == [] then []
    else
      var last := pages[|pages| - 1];
      UnitsOf(pages[..|pages| - 1])
      + (if Contributes(last) && last.documentType == HQ.BuildingLedgerExclusive && "exclusive_units" in last.parsedData
            && last.parsedData["exclusive_units"].Arr?
         then last.parsedData["exclusive_units"].items else [])
  }

  /**
   * A completed merge records exactly the contributing pages of a known type, and its
   * unit list is every page's units end to end, duplicates kept.
   */
  lemma {:induction false} MergedContents(pages: seq<PageResult>)
    requires MergedPages(pages).Some?
    ensures MergedPages(pages).value.documentsFound == FoundOf(pages)
    ensures OrEmpty(MergedPages(pages).value.units) == UnitsOf(pages)
    ensures MergedPages(pages).value.sections.Keys == SectionKeys
  {
    if pages != [] {
      var init := pages[..|pages| - 1];
      MergedContents(init);
      StepContents(MergedPages(init).value, pages[|pages| - 1]);
    }
  }

  /** One page adds its found entry and its units, and touches only the known sections. */
  lemma StepContents(m: Merged, p: PageResult)
    requires Step(m, p).Some? && m.sections.Keys == SectionKeys
    ensures Step(m, p).value.documentsFound == m.documentsFound
      + (if Contributes(p) && p.documentType != HQ.Unknown then [Found(p.documentType, p.pageNumber, p.confidence)] else [])
    ensures OrEmpty(Step(m, p).value.units) == OrEmpty(m.units)
      + (if Contributes(p) && p.documentType == HQ.BuildingLedgerExclusive && "exclusive_units" in p.parsedData
            && p.parsedData["exclusive_units"].Arr?
         then p.parsedData["exclusive_units"].items else [])
    ensures Step(m, p).value.sections.Keys == SectionKeys
  {
  }

  /** A page with an error, no data or a parse error leaves the merge as it was. */
  lemma SkippedPageIgnored(pages: seq<PageResult>, p: PageResult)
    requires !Contributes(p)
    ensures MergedPages(pages + [p]) == MergedPages(pages)
  {
    assert (pages + [p])[..|pages|] == pages;
  }

  // ------------------------------------------------------------------ conversion

  /** `d.get(k, {})` read as a dict; a non-dict value is read as empty. */
  function SubDict(d: Dict, k: string): Dict
  {
    if k in d && d[k].Obj? then d[k].fields else map[]
  }

  function StrField(d: Dict, k: string): Option<string>
  {
    if k in d && d[k].Str? then Some(d[k].s) else None
  }

  function FlagField(d: Dict, k: string): bool
  {
    k in d && Truthy(d[k])
  }

  function OptBool(d: Dict, k: string): Option<bool>
  {
    if k in d && d[k].Bool? then Some(d[k].b) else None
  }

  function OptInt(d: Dict, k: string): Option<int>
  {
    if k in d && d[k].Int? then Some(d[k].i) else None
  }

  function OptReal(d: Dict, k: string): Option<real>
  {
    if k in d && IsNumber(d[k]) then Some(AsReal(d[k])) else None
  }

  function Present(b: DocBase): DocBase { b.(present := true) }

  function ApplyApplication(r: ReviewResult, app: Dict): (out: ReviewResult)
    ensures out.application.base.present
  {
    var a := r.application.(base := Present(r.application.base), writtenDate := StrField(app, "written_date"));
    var oi := SubDict(app, "owner_info");
    var a1 :=
      if oi == map[] then a
      else a.(owner := OwnerInfo(StrField(oi, "name"), StrField(oi, "birth_date"), StrField(oi, "address"),
                                 StrField(oi, "phone"), StrField(oi, "email"), FlagField(oi, "is_complete")));
    var pi := SubDict(app, "property_info");
    var a2 := if pi == map[] then a1 else a1.(landArea := OptReal(pi, "land_area"), approvalDate := StrField(pi, "approval_date"));
    var si := SubDict(app, "seal_info");
    var a3 := if si == map[] then a2 else a2.(seal := a2.seal.(sealExists := FlagField(si, "has_seal")));
    var r1 := if pi == map[] then r else r.(propertyAddress := StrField(pi, "location"));
    r1.(application := a3)
  }

  function ApplyTitle(r: ReviewResult, blt: Dict): (out: ReviewResult)
    ensures out.ledgerTitle.base.present
  {
    var t := r.ledgerTitle.(
      base := Present(r.ledgerTitle.base),
      approvalDate := StrField(blt, "approval_date"),
      seismicDesign := OptBool(blt, "seismic_design"),
      hasBasement := Some(FlagField(blt, "has_basement")),
      basementFloors := if "basement_floors" in blt then OptInt(blt, "basement_floors") else Some(0),
      hasElevator := OptBool(blt, "has_elevator"),
      elevatorCount := OptInt(blt, "elevator_count"),
      outdoorParking := OptInt(blt, "outdoor_parking"),
      indoorParking := OptInt(blt, "indoor_parking"),
      mechanicalParking := OptInt(blt, "mechanical_parking"));
    var address :=
      if StrField(blt, "location").Some? && StrField(blt, "location").value != []
         && !(r.propertyAddress.Some? && r.propertyAddress.value != [])
      then StrField(blt, "location") else r.propertyAddress;
    r.(ledgerTitle := t, propertyAddress := address)
  }

  function ApplyRegistry(r: ReviewResult, reg: Dict): (out: ReviewResult)
    ensures out.buildingRegistry.base.present
  {
    var gap := SubDict(reg, "gap_section");
    var eul := SubDict(reg, "eul_section");
    r.(buildingRegistry := r.buildingRegistry.(
      base := Present(r.buildingRegistry.base),
      hasSeizure := FlagField(gap, "has_seizure"),
      hasMortgage := FlagField(eul, "has_mortgage"),
      hasTrust := FlagField(eul, "has_trust")))
  }

  function ApplyLandUse(r: ReviewResult, lup: Dict): (out: ReviewResult)
    ensures out.landUsePlan.base.present
  {
    var z := SubDict(lup, "zoning");
    r.(landUsePlan := r.landUsePlan.(
      base := Present(r.landUsePlan.base),
      isRedevelopmentZone := FlagField(z, "is_redevelopment_zone"),
      isMaintenanceZone := FlagField(z, "is_maintenance_zone"),
      isPublicHousingZone := FlagField(z, "is_public_housing_zone"),
      isHousingDevelopmentZone := FlagField(z, "is_housing_development_zone")))
  }

  /**
   * `convert_to_review_result`: a fresh review result whose sale application, ledger
   * title, building registry and land-use plan are marked present exactly when the merged
   * data has a non-empty dict for them; other records keep their defaults.
   */
  function ConvertToReviewResult(data: Dict, reviewDate: string, announcementDate: string): (r: ReviewResult)
    ensures r.application.base.present <==> SubDict(data, "housing_sale_application") != map[]
    ensures r.ledgerTitle.base.present <==> SubDict(data, "building_ledger_title") != map[]
    ensures r.buildingRegistry.base.present <==> SubDict(data, "building_registry") != map[]
    ensures r.landUsePlan.base.present <==> SubDict(data, "land_use_plan") != map[]
    ensures r.reviewDate == reviewDate && r.announcementDate == Some(announcementDate)
    ensures r.rentalStatus == DefaultRentalStatus && r.landLedger == DefaultLandLedger && r.supplementaryDocuments == []
  {
    var r0 := NewReviewResult(reviewDate, Some(announcementDate));
    var app := SubDict(data, "housing_sale_application");
    var r1 := if app != map[] then ApplyApplication(r0, app) else r0;
    var blt := SubDict(data, "building_ledger_title");
    var r2 := if blt != map[] then ApplyTitle(r1, blt) else r1;
    var reg := SubDict(data, "building_registry");
    var r3 := if reg != map[] then ApplyRegistry(r2, reg) else r2;
    var lup := SubDict(data, "land_use_plan");
    if lup != map[] then ApplyLandUse(r3, lup) else r3
  }

  /** The ledger location fills the address only when the sale application gave none. */
  lemma ApplicationAddressFirst(data: Dict, reviewDate: string, ann: string)
    requires StrField(SubDict(SubDict(data, "housing_sale_application"), "property_info"), "location") == Some("A")
    ensures ConvertToReviewResult(data, reviewDate, ann).propertyAddress == Some("A")
  {
  }
}
