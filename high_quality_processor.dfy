/**
 * `HighQualityPDFProcessor`: the keyword-ratio document classifier and the grouping of
 * pages by detected type. Rasterisation and image enhancement are not part of this model.
 */
module HighQualityProcessor {
  import opened Text

  datatype DocumentType =
    | HousingSaleApplication | RentalStatus | PowerOfAttorney | SealCertificate | IdCard
    | ConsentForm | IntegrityPledge | LhEmployeeConfirmation | BuildingLedgerSummary
    | BuildingLedgerTitle | BuildingLedgerExclusive | BuildingLayout | LandLedger | LandUsePlan
    | LandRegistry | BuildingRegistry | RealtorRegistration | BusinessRegistration
    | CorporateRegistry | TrustContract | Unknown

  /** `DOCUMENT_KEYWORDS`, in its declaration order (which decides ties). */
  const DocumentKeywords: seq<(DocumentType, seq<string>)> := [
    (HousingSaleApplication, ["주택매도신청서", "주택매도 신청서", "매도신청서", "매도 신청서",
                              "소유자", "매도주택", "대지면적", "건물사용승인일", "현거주지"]),
    (RentalStatus, ["임대현황", "매도신청주택 임대현황", "호별현황", "전용면적", "임대보증금"]),
    (PowerOfAttorney, ["위임장", "위 임 장", "위임합니다", "수임인", "위임인"]),
    (SealCertificate, ["인감증명서", "인감증명", "본인발급", "법인인감"]),
    (IdCard, ["주민등록증", "운전면허증", "여권", "외국인등록증"]),
    (ConsentForm, ["개인정보", "수집", "이용", "동의서", "제공 동의"]),
    (IntegrityPledge, ["청렴서약서", "청렴 서약서", "서약합니다", "부정청탁"]),
    (LhEmployeeConfirmation, ["공사직원", "직원여부", "LH", "한국토지주택공사"]),
    (BuildingLedgerSummary, ["총괄표제부", "건축물대장", "총괄 표제부"]),
    (BuildingLedgerTitle, ["표제부", "건축물대장", "대지위치", "주용도", "주구조", "사용승인일", "내진설계", "승강기"]),
    (BuildingLedgerExclusive, ["전유부", "전유부분", "호수", "전용면적"]),
    (BuildingLayout, ["건축물현황도", "현황도", "평면도", "배치도"]),
    (LandLedger, ["토지대장", "지목", "면적", "소유자"]),
    (LandUsePlan, ["토지이용계획", "토지이용계획확인원", "도시계획", "용도지역"]),
    (LandRegistry, ["토지", "등기사항전부증명서", "등기부등본", "갑구", "을구"]),
    (BuildingRegistry, ["건물", "등기사항전부증명서", "등기부등본", "갑구", "을구"]),
    (RealtorRegistration, ["중개사무소", "등록증", "공인중개사"]),
    (BusinessRegistration, ["사업자등록증", "사업자등록번호", "대표자"]),
    (CorporateRegistry, ["법인등기", "등기사항전부증명서", "법인", "이사", "감사"]),
    (TrustContract, ["신탁", "신탁계약", "수탁자", "위탁자"])
  ]

  /** `s.lower().replace(" ", "")` */
  function Normalize(s: string): string
  {
    Without(Lower(s), {' '})
  }

  /** Number of keywords whose normalised form occurs in the normalised text. */
  function Hits(norm: string, keywords: seq<string>): (n: nat)
    ensures n <= |keywords|
  {
    if keywords == [] then 0
    else
      Hits(norm, keywords[..|keywords| - 1])
      + (if Contains(norm, Normalize(keywords[|keywords| - 1])) then 1 else 0)
  }

  /** `score / len(keywords)` for one entry of the table. */
  function Ratio(norm: string, keywords: seq<string>): (r: real)
    ensures 0.0 <= r <= 1.0
    ensures r > 0.0 <==> Hits(norm, keywords) > 0
  {
    if keywords == [] then 0.0
    else
      var h := Hits(norm, keywords) as real;
      var n := |keywords| as real;
      assert h / n * n == h;
      h / n
  }

  function Score(table: seq<(DocumentType, seq<string>)>, norm: string, i: nat): real
    requires i < |table|
  {
    Ratio(norm, table[i].1)
  }

  predicate IsLedger(t: DocumentType)
  {
    t == BuildingLedgerTitle || t == BuildingLedgerSummary || t == BuildingLedgerExclusive
  }

  predicate IsRegistry(t: DocumentType) { t == LandRegistry || t == BuildingRegistry }

  function Head(s: string, n: nat): string { s[..if |s| < n then |s| else n] }

  /** The relabelling of a ledger or registry winner by phrases of the raw text. */
  function Refine(text: string, best: DocumentType): (t: DocumentType)
    ensures IsLedger(best) ==> IsLedger(t)
    ensures IsLedger(best) ==>
      (t == BuildingLedgerSummary <==> Contains(text, "총괄표제부") || Contains(text, "총괄 표제부"))
    ensures IsRegistry(best) ==> IsRegistry(t)
    ensures !IsLedger(best) && !IsRegistry(best) ==> t == best
  {
    var t :=
      if !IsLedger(best) then best
      else if Contains(text, "총괄표제부") || Contains(text, "총괄 표제부") then BuildingLedgerSummary
      else if Contains(text, "전유부") || Contains(text, "전유부분") then BuildingLedgerExclusive
      else BuildingLedgerTitle;
    if !IsRegistry(t) then t
    else if Contains(Head(text, 200), "토지") then LandRegistry
    else if Contains(Head(text, 200), "건물") then BuildingRegistry
    else t
  }

  method CountHits(norm: string, keywords: seq<string>) returns (n: nat)
    ensures n == Hits(norm, keywords)
  {
    n := 0;
    var k := 0;
    while k < |keywords|
      invariant 0 <= k <= |keywords|
      invariant n == Hits(norm, keywords[..k])
    {
      assert keywords[..k + 1][..k] == keywords[..k];
      if Contains(norm, Normalize(keywords[k])) {
        n := n + 1;
      }
      k := k + 1;
    }
    assert keywords[..k] == keywords;
  }

  /**
   * The scan of `_detect_document_type` over a keyword table: the index of the entry with
   * the largest keyword ratio, the first one on a tie (`max` over a dict keeps insertion
   * order), or -1 when no keyword of any entry occurs.
   */
  method BestEntry(table: seq<(DocumentType, seq<string>)>, norm: string) returns (best: int, bestScore: real)
    ensures -1 <= best < |table|
    ensures best == -1 <==> forall j :: 0 <= j < |table| ==> Score(table, norm, j) == 0.0
    ensures best == -1 ==> bestScore == 0.0
    ensures best >= 0 ==> bestScore == Score(table, norm, best) > 0.0
    ensures forall j :: 0 <= j < |table| ==> Score(table, norm, j) <= bestScore
    ensures forall j :: 0 <= j < best ==> Score(table, norm, j) < bestScore
  {
    best := -1;
    bestScore := 0.0;
    var i := 0;
    while i < |table|
      invariant 0 <= i <= |table|
      invariant -1 <= best < i
      invariant best == -1 <==> forall j :: 0 <= j < i ==> Score(table, norm, j) == 0.0
      invariant best == -1 ==> bestScore == 0.0
      invariant best >= 0 ==> bestScore == Score(table, norm, best) > 0.0
      invariant forall j :: 0 <= j < i ==> Score(table, norm, j) <= bestScore
      invariant forall j :: 0 <= j < best ==> Score(table, norm, j) < bestScore
    {
      var keywords := table[i].1;
      var hits := CountHits(norm, keywords);
      if hits > 0 {
        var s := hits as real / |keywords| as real;
        assert s == Score(table, norm, i);
        if s > bestScore {
          best := i;
          bestScore := s;
        }
      } else {
        assert Score(table, norm, i) == 0.0;
      }
      i := i + 1;
    }
  }

  /**
   * `_detect_document_type`: the best entry of `DOCUMENT_KEYWORDS`, relabelled, with its
   * ratio; (UNKNOWN, 0.0) when no keyword of any type occurs.
   */
  method DetectDocumentType(text: string) returns (t: DocumentType, score: real)
    ensures score == 0.0 <==> t == Unknown
    ensures 0.0 <= score <= 1.0
    ensures t == Unknown <==>
      forall j :: 0 <= j < |DocumentKeywords| ==> Score(DocumentKeywords, Normalize(text), j) == 0.0
    ensures forall j :: 0 <= j < |DocumentKeywords| ==> Score(DocumentKeywords, Normalize(text), j) <= score
    ensures t != Unknown ==>
      exists b :: 0 <= b < |DocumentKeywords| && Score(DocumentKeywords, Normalize(text), b) == score
        && (forall j :: 0 <= j < b ==> Score(DocumentKeywords, Normalize(text), j) < score)
        && t == Refine(text, DocumentKeywords[b].0)
  {
    var table := DocumentKeywords;
    var best, bestScore := BestEntry(table, Normalize(text));
    if best == -1 {
      return Unknown, 0.0;
    }
    NoUnknownEntry(best);
    t := Refine(text, table[best].0);
    score := bestScore;
  }

  /** The table has no entry for UNKNOWN, and relabelling never yields it. */
  lemma NoUnknownEntry(i: nat)
    requires i < |DocumentKeywords|
    ensures forall text :: Refine(text, DocumentKeywords[i].0) != Unknown
  {
  }

  /** A page with the type its text was classified as. */
  datatype Page = Page(pageNumber: int, detectedType: DocumentType)

  /** The pages of one type, in their original order. */
  function OfType(pages: seq<Page>, t: DocumentType): (r: seq<Page>)
    ensures forall p :: p in r <==> p in pages && p.detectedType == t
    ensures |r| <= |pages|
    ensures (forall p :: p in pages ==> p.detectedType != t) ==> r == []
  {
    if pages == [] then []
    else
      var init := OfType(pages[..|pages| - 1], t);
      var last := pages[|pages| - 1];
      assert pages == pages[..|pages| - 1] + [last];
      if last.detectedType == t then init + [last] else init
  }

  /** `_group_by_document_type`: every detected type keys the list of its pages, in order. */
  method GroupByDocumentType(pages: seq<Page>) returns (groups: map<DocumentType, seq<Page>>)
    ensures forall t :: t in groups <==> exists p :: p in pages && p.detectedType == t
    ensures forall t :: t in groups ==> groups[t] == OfType(pages, t)
  {
    groups := map[];
    var k := 0;
    while k < |pages|
      invariant 0 <= k <= |pages|
      invariant forall t :: t in groups <==> exists p :: p in pages[..k] && p.detectedType == t
      invariant forall t :: t in groups ==> groups[t] == OfType(pages[..k], t)
    {
      var page := pages[k];
      assert pages[..k + 1] == pages[..k] + [page];
      assert pages[..k + 1][..k] == pages[..k];
      if page.detectedType !in groups {
        groups := groups[page.detectedType := []];
      }
      groups := groups[page.detectedType := groups[page.detectedType] + [page]];
      k := k + 1;
    }
    assert pages[..k] == pages;
  }

  /** Grouping loses no page and puts none in two groups: the group sizes add up. */
  lemma {:induction false} GroupsPartition(pages: seq<Page>, t: DocumentType, u: DocumentType)
    requires t != u
    ensures |OfType(pages, t)| + |OfType(pages, u)| <= |pages|
  {
    if pages != [] {
      GroupsPartition(pages[..|pages| - 1], t, u);
    }
  }
}
