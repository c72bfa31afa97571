/**
 * The fast analyser of core/ultra_unified_pdf_analyzer.py: a first-match keyword detector
 * on the page text, the page-length gate in front of it, a first-match mapping of the
 * vision model's type strings, and a later-wins merge of the documents of one category.
 */
module UltraUnifiedPdfAnalyzer {
  import opened Wrappers
  import opened Text
  import opened Values
  import opened DocTypes
  import U = UnifiedPdfAnalyzer

  // ================================================================== page detection

  /** One entry of the keyword list of `_detect_document_type`: the keyword, its category, its score. */
  datatype KeywordRule = KeywordRule(keyword: string, docType: U.KnownType, score: real)

  /** The keyword list, longer keywords of a category first; written in two parts. */
  const KeywordRules: seq<KeywordRule> := KeywordRules1 + KeywordRules2

  const KeywordRules1: seq<KeywordRule> := [
    KeywordRule("매도신청주택임대현황", RentalStatus, 0.92),
    KeywordRule("주택매도신청서", HousingSaleApplication, 0.90),
    KeywordRule("매도신청서", HousingSaleApplication, 0.88),
    KeywordRule("개인정보동의서", ConsentForm, 0.90),
    KeywordRule("청렴서약서", IntegrityPledge, 0.90),
    KeywordRule("공사직원확인서", LhEmployeeConfirm, 0.90),
    KeywordRule("인감증명서", SealCertificate, 0.90),
    KeywordRule("위임장", PowerOfAttorney, 0.90),
    KeywordRule("건축물대장총괄", BuildingLedgerSummary, 0.90),
    KeywordRule("총괄표제부", BuildingLedgerSummary, 0.88),
    KeywordRule("건축물대장전유부", BuildingLedgerExclusive, 0.90),
    KeywordRule("전유부", BuildingLedgerExclusive, 0.85)
  ]

  const KeywordRules2: seq<KeywordRule> := [
    KeywordRule("건축물대장", BuildingLedgerTitle, 0.85),
    KeywordRule("건축물현황도", BuildingLayout, 0.90),
    KeywordRule("토지이용계획", LandUsePlan, 0.90),
    KeywordRule("토지대장", LandLedger, 0.88),
    KeywordRule("토지등기부등본", LandRegistry, 0.90),
    KeywordRule("건물등기부등본", BuildingRegistry, 0.90),
    KeywordRule("등기사항전부증명서", BuildingRegistry, 0.85),
    KeywordRule("준공도면", AsBuiltDrawing, 0.90),
    KeywordRule("시험성적서", TestCertificate, 0.90),
    KeywordRule("시험성적", TestCertificate, 0.85),
    KeywordRule("납품확인서", DeliveryConfirmation, 0.90),
    KeywordRule("납품확인", DeliveryConfirmation, 0.85)
  ]

  /** Below this many characters other than spaces and newlines, detection gives up. */
  const MinDetectLength: nat := 20

  /** Below this many characters other than spaces and newlines, `analyze` leaves a page to the vision model. */
  const MinPageLength: nat := 30

  /** Score of the two combination fallbacks. */
  const FallbackScore: real := 0.82

  function RuleKeywords(rules: seq<KeywordRule>): (r: seq<string>)
    ensures |r| == |rules|
    ensures forall i :: 0 <= i < |rules| ==> r[i] == rules[i].keyword
  {
    if rules == [] then [] else RuleKeywords(rules[..|rules| - 1]) + [rules[|rules| - 1].keyword]
  }

  /** The first fallback: "개인정보" together with "동의". */
  predicate ConsentHint(n: string)
  {
    Contains(n, "개인정보") && Contains(n, "동의")
  }

  /**
   * `_detect_document_type` over a keyword list: (UNKNOWN, 0.0) for a text with fewer than 20
   * characters once spaces and newlines are removed; else the first keyword found, with its
   * score; else the consent and land-registry fallbacks; else (UNKNOWN, 0.0).
   */
  function DetectWith(rules: seq<KeywordRule>, text: string): (r: (DocType, real))
    ensures |U.Squeeze(text)| < MinDetectLength ==> r == (Unknown, 0.0)
  {
    if text == "" then (Unknown, 0.0)
    else
      var n := U.Squeeze(text);
      if |n| < MinDetectLength then (Unknown, 0.0)
      else
        var i := FirstHit(n, RuleKeywords(rules));
        if i >= 0 then (rules[i].docType, rules[i].score)
        else if ConsentHint(n) then (ConsentForm, FallbackScore)
        else if U.LandRegistryHint(n) then (LandRegistry, FallbackScore)
        else (Unknown, 0.0)
  }

  /** `_detect_document_type(text)` */
  function Detect(text: string): (DocType, real)
  {
    DetectWith(KeywordRules, text)
  }

  /** Keyword `i` is the first one of the list found in `n`. */
  predicate FirstRuleAt(n: string, rules: seq<KeywordRule>, i: int)
  {
    0 <= i < |rules| && Contains(n, rules[i].keyword)
    && forall j :: 0 <= j < i ==> !Contains(n, rules[j].keyword)
  }

  /** On a long enough text the first keyword found decides both the category and the score. */
  lemma DetectFirstKeyword(rules: seq<KeywordRule>, text: string, i: int)
    requires |U.Squeeze(text)| >= MinDetectLength && FirstRuleAt(U.Squeeze(text), rules, i)
    ensures DetectWith(rules, text) == (rules[i].docType, rules[i].score)
  {
    var n := U.Squeeze(text);
    assert RuleKeywords(rules)[i] == rules[i].keyword;
  }

  /**
   * The detector answers UNKNOWN exactly for a short text, or one with no keyword and
   * neither fallback; UNKNOWN comes with score 0.0.
   */
  lemma DetectUnknownIff(rules: seq<KeywordRule>, text: string)
    ensures var r := DetectWith(rules, text); var n := U.Squeeze(text);
      (r.0 == Unknown <==>
         |n| < MinDetectLength
         || (!ContainsAny(n, RuleKeywords(rules)) && !ConsentHint(n) && !U.LandRegistryHint(n)))
      && (r.0 == Unknown ==> r.1 == 0.0)
  {
    var n := U.Squeeze(text);
    if text == "" {
      assert n == "";
    } else if |n| >= MinDetectLength {
      var i := FirstHit(n, RuleKeywords(rules));
      if i >= 0 {
        assert rules[i].docType != Unknown;
      }
    }
  }

  /** Every keyword of the list scores between 0.85 and 0.92. */
  lemma KeywordScoresInRange()
    ensures forall i :: 0 <= i < |KeywordRules| ==> 0.85 <= KeywordRules[i].score <= 0.92
  {
    assert forall i :: 0 <= i < |KeywordRules1| ==> KeywordRules[i] == KeywordRules1[i];
    assert forall i :: 0 <= i < |KeywordRules2| ==> KeywordRules[|KeywordRules1| + i] == KeywordRules2[i];
  }

  /** A recognised page scores between 0.82 and 0.92; an unrecognised one scores 0.0. */
  lemma DetectScoreRange(text: string)
    ensures Detect(text).0 != Unknown ==> FallbackScore <= Detect(text).1 <= 0.92
    ensures Detect(text).0 == Unknown ==> Detect(text).1 == 0.0
  {
    KeywordScoresInRange();
    DetectUnknownIff(KeywordRules, text);
  }

  // ------------------------------------------------------------------ the page gate of `analyze`

  /** The characters of a page that count towards both thresholds. */
  function PageLength(text: string): nat
  {
    |U.Squeeze(text)|
  }

  /** One page of the first typing pass: detection, overridden by (UNKNOWN, 0.0) on a short page. */
  function PageType(text: string): (DocType, real)
  {
    if PageLength(text) < MinPageLength then (Unknown, 0.0) else Detect(text)
  }

  /** How many of the pages are short. */
  function ShortPages(texts: seq<string>): (n: nat)
    ensures n <= |texts|
  {
    if texts == [] then 0
    else ShortPages(texts[..|texts| - 1]) + (if PageLength(texts[|texts| - 1]) < MinPageLength then 1 else 0)
  }

  /** How many of the pages the first pass leaves UNKNOWN. */
  function UnknownPages(texts: seq<string>): (n: nat)
    ensures n <= |texts|
  {
    if texts == [] then 0
    else UnknownPages(texts[..|texts| - 1]) + (if PageType(texts[|texts| - 1]).0 == Unknown then 1 else 0)
  }

  /**
   * The first typing loop of `analyze`: each page's type and score, and `unknown_count`,
   * which counts the pages forced to UNKNOWN for want of text.
   */
  method ClassifyPages(texts: seq<string>) returns (types: seq<(DocType, real)>, unknownCount: nat)
    ensures |types| == |texts|
    ensures forall i :: 0 <= i < |texts| ==> types[i] == PageType(texts[i])
    ensures unknownCount == ShortPages(texts)
  {
    types := [];
    unknownCount := 0;
    for i := 0 to |texts|
      invariant |types| == i
      invariant forall j :: 0 <= j < i ==> types[j] == PageType(texts[j])
      invariant unknownCount == ShortPages(texts[..i])
    {
      var text := texts[i];
      var docType, confidence := Detect(text).0, Detect(text).1;
      if |U.Squeeze(text)| < MinPageLength {
        docType, confidence := Unknown, 0.0;
        unknownCount := unknownCount + 1;
      }
      assert texts[..i + 1][..i] == texts[..i];
      types := types + [(docType, confidence)];
    }
    assert texts[..|texts|] == texts;
  }

  /** A page the first pass recognises has at least 30 significant characters. */
  lemma RecognisedPagesAreLong(text: string)
    ensures PageType(text).0 != Unknown ==> PageLength(text) >= MinPageLength
  {
  }

  /**
   * `unknown_count` counts only the short pages: it never exceeds the number of pages the
   * first pass leaves UNKNOWN, which may also include long pages with no keyword.
   */
  lemma {:induction false} ShortPagesAtMostUnknown(texts: seq<string>)
    ensures ShortPages(texts) <= UnknownPages(texts)
  {
    if texts != [] {
      ShortPagesAtMostUnknown(texts[..|texts| - 1]);
    }
  }

  // ================================================================== type strings

  /** The answers that mean "no category". */
  const StopWords: set<string> := {"기타", "other", "unknown", "미확인", "none", "null"}

  /** The exact table of `_map_type_string`, in its insertion order; written in four parts. */
  const ExactKeys: seq<(string, U.KnownType)> := ExactKeys1 + ExactKeys2 + ExactKeys3 + ExactKeys4

  const ExactKeys1: seq<(string, U.KnownType)> := [
    ("주택매도신청서", HousingSaleApplication), ("매도신청서", HousingSaleApplication),
    ("매도신청주택임대현황", RentalStatus), ("임대현황", RentalStatus),
    ("위임장", PowerOfAttorney), ("개인정보동의서", ConsentForm)
  ]

  const ExactKeys2: seq<(string, U.KnownType)> := [
    ("청렴서약서", IntegrityPledge), ("공사직원확인서", LhEmployeeConfirm),
    ("공사직원여부확인서", LhEmployeeConfirm), ("인감증명서", SealCertificate),
    ("건축물대장표제부", BuildingLedgerTitle), ("건축물대장총괄표제부", BuildingLedgerSummary)
  ]

  const ExactKeys3: seq<(string, U.KnownType)> := [
    ("건축물대장전유부", BuildingLedgerExclusive), ("건축물현황도", BuildingLayout),
    ("토지대장", LandLedger), ("토지이용계획확인원", LandUsePlan),
    ("건물등기부등본", BuildingRegistry), ("토지등기부등본", LandRegistry)
  ]

  const ExactKeys4: seq<(string, U.KnownType)> := [
    ("준공도면", AsBuiltDrawing), ("시험성적서", TestCertificate),
    ("납품확인서", DeliveryConfirmation), ("중개사무소등록증", RealtorRegistration),
    ("사업자등록증", BusinessRegistration)
  ]

  /** One of the partial rules tried after the exact table. */
  datatype PartialRule = PartialRule(when: U.Cond, docType: U.KnownType)

  const Registry: U.Cond := U.Or(U.Has("등기"), U.Has("등본"))

  /** The partial rules, in the order of the `if` chain; written in two parts. */
  const PartialRules: seq<PartialRule> := PartialRules1 + PartialRules2

  const PartialRules1: seq<PartialRule> := [
    PartialRule(U.Or(U.Or(U.Has("시험"), U.Has("성적")), U.Has("test")), TestCertificate),
    PartialRule(U.Has("납품"), DeliveryConfirmation),
    PartialRule(U.Has("인감"), SealCertificate),
    PartialRule(U.Has("위임"), PowerOfAttorney),
    PartialRule(U.Has("청렴"), IntegrityPledge),
    PartialRule(U.And(U.Has("동의"), U.Has("개인")), ConsentForm),
    PartialRule(U.Or(U.Has("공사직원"), U.Has("직원확인")), LhEmployeeConfirm),
    PartialRule(U.Has("총괄"), BuildingLedgerSummary),
    PartialRule(U.Has("전유"), BuildingLedgerExclusive)
  ]

  const PartialRules2: seq<PartialRule> := [
    PartialRule(U.Or(U.Has("건축물대장"), U.Has("표제부")), BuildingLedgerTitle),
    PartialRule(U.Has("현황도"), BuildingLayout),
    PartialRule(U.Or(U.Has("토지이용"), U.Has("이용계획")), LandUsePlan),
    PartialRule(U.Has("토지대장"), LandLedger),
    PartialRule(U.And(U.Has("토지"), Registry), LandRegistry),
    PartialRule(U.And(U.Has("건물"), Registry), BuildingRegistry),
    PartialRule(Registry, BuildingRegistry),
    PartialRule(U.Or(U.Has("준공"), U.Has("도면")), AsBuiltDrawing),
    PartialRule(U.Has("매도"), HousingSaleApplication)
  ]

  /** `type_str.replace(" ", "").replace("\n", "").strip().lower()` */
  function Normalize(s: string): string
  {
    Lower(Strip(U.Squeeze(s)))
  }

  lemma NormalizeEmpty()
    ensures Normalize("") == ""
  {
    assert U.Squeeze("") == "";
    assert Strip("") == "";
  }

  /** Index of the first partial rule whose condition holds, or -1. */
  function FirstPartial(n: string, rules: seq<PartialRule>): (r: int)
    ensures -1 <= r < |rules|
    ensures r >= 0 ==> U.Holds(rules[r].when, n) && forall j :: 0 <= j < r ==> !U.Holds(rules[j].when, n)
    ensures r == -1 <==> forall j :: 0 <= j < |rules| ==> !U.Holds(rules[j].when, n)
  {
    if rules == [] then -1
    else if U.Holds(rules[0].when, n) then 0
    else
      var t := FirstPartial(n, rules[1..]);
      assert forall j :: 1 <= j < |rules| ==> rules[j] == rules[1..][j - 1];
      if t == -1 then -1 else t + 1
  }

  /**
   * `_map_type_string` over an exact table and partial rules: UNKNOWN for an empty answer or
   * a stop word; else the first exact key found in the normalised answer; else the first
   * partial rule that holds; else UNKNOWN.
   */
  function MapTypeWith(exact: seq<(string, U.KnownType)>, partial: seq<PartialRule>, typeStr: string): (r: DocType)
    ensures Normalize(typeStr) in StopWords ==> r == Unknown
  {
    if typeStr == "" then Unknown
    else
      var s := Normalize(typeStr);
      if s == "" || s in StopWords then Unknown
      else
        var i := FirstHit(s, U.Keys(exact));
        if i >= 0 then exact[i].1
        else
          var j := FirstPartial(s, partial);
          if j >= 0 then partial[j].docType else Unknown
  }

  /** `_map_type_string(type_str)` */
  function MapTypeString(typeStr: string): (r: DocType)
    ensures var s := Normalize(typeStr);
      r == Unknown <==>
        (s == "" || s in StopWords
         || (!ContainsAny(s, U.Keys(ExactKeys)) && forall j :: 0 <= j < |PartialRules| ==> !U.Holds(PartialRules[j].when, s)))
  {
    MapTypeUnknownIff(ExactKeys, PartialRules, typeStr);
    MapTypeWith(ExactKeys, PartialRules, typeStr)
  }

  /**
   * The mapping gives UNKNOWN exactly for an answer that normalises to nothing or to a stop
   * word, or that holds no exact key and satisfies no partial rule.
   */
  lemma MapTypeUnknownIff(exact: seq<(string, U.KnownType)>, partial: seq<PartialRule>, typeStr: string)
    ensures var s := Normalize(typeStr);
      MapTypeWith(exact, partial, typeStr) == Unknown <==>
        s == "" || s in StopWords
        || (!ContainsAny(s, U.Keys(exact)) && forall j :: 0 <= j < |partial| ==> !U.Holds(partial[j].when, s))
  {
    var s := Normalize(typeStr);
    NormalizeEmpty();
    if s != "" && s !in StopWords {
      var i := FirstHit(s, U.Keys(exact));
      if i >= 0 {
        assert exact[i].1 != Unknown;
      } else {
        var j := FirstPartial(s, partial);
        if j >= 0 {
          assert partial[j].docType != Unknown;
        }
      }
    }
  }

  /** The first exact key found in the normalised answer decides, before any partial rule. */
  lemma MapTypeFirstExact(exact: seq<(string, U.KnownType)>, partial: seq<PartialRule>, typeStr: string, i: int)
    requires Normalize(typeStr) != "" && Normalize(typeStr) !in StopWords
    requires U.FirstKeyAt(Normalize(typeStr), exact, i)
    ensures MapTypeWith(exact, partial, typeStr) == exact[i].1
  {
    NormalizeEmpty();
    assert U.Keys(exact)[i] == exact[i].0;
  }

  /** Without an exact key, the first partial rule that holds decides. */
  lemma MapTypeFirstPartial(exact: seq<(string, U.KnownType)>, partial: seq<PartialRule>, typeStr: string, j: int)
    requires Normalize(typeStr) != "" && Normalize(typeStr) !in StopWords
    requires !ContainsAny(Normalize(typeStr), U.Keys(exact))
    requires 0 <= j < |partial| && U.Holds(partial[j].when, Normalize(typeStr))
    requires forall m :: 0 <= m < j ==> !U.Holds(partial[m].when, Normalize(typeStr))
    ensures MapTypeWith(exact, partial, typeStr) == partial[j].docType
  {
    NormalizeEmpty();
  }

  // ================================================================== merging

  /**
   * The dict a document carries. Every document this analyser builds carries one, since
   * `_analyze_document_pages` always returns a dict; anything else would count as empty.
   */
  function Fields(d: U.DocumentInfo): Dict
  {
    if d.mergedData.Obj? then d.mergedData.fields else map[]
  }

  /** The repeated `merged_data.update(...)`: each document's keys overwrite the earlier ones. */
  function Overlay(group: seq<U.DocumentInfo>): (r: Dict)
  {
    if group == [] then map[]
    else Overlay(group[..|group| - 1]) + Fields(group[|group| - 1])
  }

  /**
   * One merge step on the kept entry: `pages.extend`, `merged_data.update` and
   * `confidence = max(existing.confidence, doc.confidence)`.
   */
  function Extend(existing: U.DocumentInfo, doc: U.DocumentInfo): U.DocumentInfo
  {
    U.DocumentInfo(existing.docType, existing.pages + doc.pages,
      Obj(Fields(existing) + Fields(doc)),
      if doc.confidence > existing.confidence then doc.confidence else existing.confidence)
  }

  /** The entry a category ends with: its first document, extended by each later one in turn. */
  function LaterMerge(group: seq<U.DocumentInfo>): U.DocumentInfo
    requires group != []
  {
    if |group| == 1 then group[0] else Extend(LaterMerge(group[..|group| - 1]), group[|group| - 1])
  }

  /**
   * The entry in closed form: the first document's category, all pages in order, the
   * later-wins overlay of the dicts and the highest confidence.
   */
  lemma {:induction false} LaterMergeClosedForm(group: seq<U.DocumentInfo>)
    requires group != [] && group[0].mergedData.Obj?
    ensures LaterMerge(group) == U.DocumentInfo(group[0].docType, U.AllPages(group), Obj(Overlay(group)), U.MaxConfidence(group))
  {
    var init := group[..|group| - 1];
    if |group| == 1 {
      assert init == [];
      assert map[] + Fields(group[0]) == Fields(group[0]);
    } else {
      LaterMergeClosedForm(init);
      assert init[0] == group[0];
    }
  }

  /** Adding document `d` extends the key order by its category, if new. */
  lemma TypesSnoc(pre: seq<U.DocumentInfo>, d: U.DocumentInfo)
    ensures var order := U.TypesInOrder(pre);
      U.TypesInOrder(pre + [d]) == if d.docType in order then order else order + [d.docType]
  {
    assert (pre + [d])[..|pre|] == pre;
  }

  /** Adding document `d` grows its category's group by it and no other group. */
  lemma GroupSnoc(pre: seq<U.DocumentInfo>, d: U.DocumentInfo)
    ensures U.Group(pre + [d], d.docType) == U.Group(pre, d.docType) + [d]
    ensures forall t :: t != d.docType ==> U.Group(pre + [d], t) == U.Group(pre, t)
  {
    assert (pre + [d])[..|pre|] == pre;
  }

  /** `e` is the entry `_merge_documents_by_type` keeps for category `t` after the documents `docs`. */
  ghost predicate EntryOf(docs: seq<U.DocumentInfo>, t: DocType, e: U.DocumentInfo)
  {
    var g := U.Group(docs, t); g != [] && e == LaterMerge(g)
  }

  /**
   * The state of `_merge_documents_by_type` after the documents `docs`: `order` lists the
   * categories met, in order of first appearance, exactly the keys of `typeMap`, and each
   * key maps to the later-wins merge of that category's documents.
   */
  ghost predicate MergedSoFar(docs: seq<U.DocumentInfo>, typeMap: map<DocType, U.DocumentInfo>, order: seq<DocType>)
  {
    && order == U.TypesInOrder(docs)
    && (forall t :: t in typeMap <==> t in order)
    && AllEntries(docs, typeMap)
  }

  /** Every key of `typeMap` holds its category's entry after the documents `docs`. */
  ghost predicate AllEntries(docs: seq<U.DocumentInfo>, typeMap: map<DocType, U.DocumentInfo>)
  {
    forall t :: t in typeMap ==> EntryOf(docs, t, typeMap[t])
  }

  /** A document extends the entry of its own category by `Extend`. */
  lemma EntryExtend(pre: seq<U.DocumentInfo>, d: U.DocumentInfo, e: U.DocumentInfo)
    requires EntryOf(pre, d.docType, e)
    ensures EntryOf(pre + [d], d.docType, Extend(e, d))
  {
    GroupSnoc(pre, d);
    var g := U.Group(pre, d.docType);
    assert (g + [d])[..|g|] == g;
  }

  /** A document of a new category makes itself that category's entry. */
  lemma EntryStart(pre: seq<U.DocumentInfo>, d: U.DocumentInfo)
    requires d.docType !in U.TypesInOrder(pre)
    ensures EntryOf(pre + [d], d.docType, d)
  {
    GroupSnoc(pre, d);
    DedupSpec(U.Types(pre));
    U.GroupEmpty(pre, d.docType);
  }

  /** A document leaves the entries of the other categories as they are. */
  lemma EntryKeep(pre: seq<U.DocumentInfo>, d: U.DocumentInfo, t: DocType, e: U.DocumentInfo)
    requires t != d.docType && EntryOf(pre, t, e)
    ensures EntryOf(pre + [d], t, e)
  {
    GroupSnoc(pre, d);
  }

  /** After document `d`, the entry of its category is `e` and the other entries stay. */
  lemma EntriesAfter(pre: seq<U.DocumentInfo>, d: U.DocumentInfo, typeMap: map<DocType, U.DocumentInfo>, e: U.DocumentInfo)
    requires AllEntries(pre, typeMap) && EntryOf(pre + [d], d.docType, e)
    ensures AllEntries(pre + [d], typeMap[d.docType := e])
  {
    var next := typeMap[d.docType := e];
    forall t | t in next
      ensures EntryOf(pre + [d], t, next[t])
    {
      if t != d.docType {
        EntryKeep(pre, d, t, typeMap[t]);
      }
    }
  }

  /** A document of a category already met replaces that category's entry by `e`; the key order stays. */
  lemma MergedSoFarReplace(pre: seq<U.DocumentInfo>, d: U.DocumentInfo, typeMap: map<DocType, U.DocumentInfo>,
                           order: seq<DocType>, e: U.DocumentInfo)
    requires MergedSoFar(pre, typeMap, order) && d.docType in typeMap && EntryOf(pre + [d], d.docType, e)
    ensures MergedSoFar(pre + [d], typeMap[d.docType := e], order)
  {
    var next := typeMap[d.docType := e];
    EntriesAfter(pre, d, typeMap, e);
    TypesSnoc(pre, d);
  }

  /** A document of a new category starts its entry as `e` and is appended to the key order. */
  lemma MergedSoFarAdd(pre: seq<U.DocumentInfo>, d: U.DocumentInfo, typeMap: map<DocType, U.DocumentInfo>,
                       order: seq<DocType>, e: U.DocumentInfo)
    requires MergedSoFar(pre, typeMap, order) && d.docType !in typeMap && EntryOf(pre + [d], d.docType, e)
    ensures MergedSoFar(pre + [d], typeMap[d.docType := e], order + [d.docType])
  {
    var next, order' := typeMap[d.docType := e], order + [d.docType];
    EntriesAfter(pre, d, typeMap, e);
    TypesSnoc(pre, d);
    assert forall t :: t in order' <==> t in order || t == d.docType;
  }

  /** The loop of `_merge_documents_by_type`, building `type_map` and its key order. */
  method MergeLoop(documents: seq<U.DocumentInfo>) returns (typeMap: map<DocType, U.DocumentInfo>, order: seq<DocType>)
    ensures MergedSoFar(documents, typeMap, order)
  {
    typeMap := map[];
    order := [];
    for i := 0 to |documents|
      invariant MergedSoFar(documents[..i], typeMap, order)
    {
      var doc := documents[i];
      assert documents[..i + 1] == documents[..i] + [doc];
      if doc.docType in typeMap {
        EntryExtend(documents[..i], doc, typeMap[doc.docType]);
        MergedSoFarReplace(documents[..i], doc, typeMap, order, Extend(typeMap[doc.docType], doc));
        typeMap := typeMap[doc.docType := Extend(typeMap[doc.docType], doc)];
      } else {
        EntryStart(documents[..i], doc);
        MergedSoFarAdd(documents[..i], doc, typeMap, order, doc);
        typeMap := typeMap[doc.docType := doc];
        order := order + [doc.docType];
      }
    }
    assert documents[..|documents|] == documents;
  }

  /** `list(type_map.values())`: the entries in key order. */
  method ValuesInOrder(typeMap: map<DocType, U.DocumentInfo>, order: seq<DocType>) returns (values: seq<U.DocumentInfo>)
    requires forall t :: t in order ==> t in typeMap
    ensures |values| == |order|
    ensures forall k :: 0 <= k < |order| ==> values[k] == typeMap[order[k]]
  {
    values := [];
    for j := 0 to |order|
      invariant |values| == j
      invariant forall k :: 0 <= k < j ==> values[k] == typeMap[order[k]]
    {
      values := values + [typeMap[order[j]]];
    }
  }

  /**
   * `_merge_documents_by_type(documents)`: one entry per category, in order of first
   * appearance, each its documents merged later-wins.
   */
  method MergeDocumentsByType(documents: seq<U.DocumentInfo>) returns (merged: seq<U.DocumentInfo>)
    ensures |merged| == |U.TypesInOrder(documents)|
    ensures forall i :: 0 <= i < |merged| ==>
      var g := U.Group(documents, U.TypesInOrder(documents)[i]);
      g != [] && merged[i] == LaterMerge(g)
  {
    var typeMap, order := MergeLoop(documents);
    merged := ValuesInOrder(typeMap, order);
  }

  /** A key is merged exactly when some document of the group has it. */
  lemma {:induction false} OverlayKeys(group: seq<U.DocumentInfo>, k: string)
    ensures k in Overlay(group) <==> exists i :: 0 <= i < |group| && k in Fields(group[i])
  {
    if group != [] {
      var init := group[..|group| - 1];
      OverlayKeys(init, k);
      if k in Overlay(init) {
        var i :| 0 <= i < |init| && k in Fields(init[i]);
        assert group[i] == init[i];
      }
      if exists i :: 0 <= i < |group| && k in Fields(group[i]) {
        var i :| 0 <= i < |group| && k in Fields(group[i]);
        if i < |init| {
          assert group[i] == init[i];
        }
      }
    }
  }

  /**
   * Later-wins: the merged value of a key is the one the LAST document having the key
   * gives, whatever the earlier documents held.
   */
  lemma {:induction false} LaterWins(group: seq<U.DocumentInfo>, k: string, j: nat)
    requires j < |group| && k in Fields(group[j])
    requires forall i :: j < i < |group| ==> k !in Fields(group[i])
    ensures k in Overlay(group) && Overlay(group)[k] == Fields(group[j])[k]
  {
    var init := group[..|group| - 1];
    if j < |group| - 1 {
      LaterWins(init, k, j);
    }
  }

  // ================================================================== detail answers

  /**
   * The dict `_analyze_document_pages` keeps from a parsed answer (None when there were no
   * images or the call failed): a dict, or the first element of a list when that is a dict,
   * marked `exists`; anything else becomes just `{"exists": True}`.
   */
  function DetailData(parsed: Option<Value>): (r: Dict)
    ensures "exists" in r && r["exists"] == Bool(true)
    ensures var src := if parsed.Some? && parsed.value.Obj? then parsed.value.fields
                       else if parsed.Some? && parsed.value.Arr? && parsed.value.items != [] && parsed.value.items[0].Obj?
                       then parsed.value.items[0].fields
                       else map[];
      r.Keys == src.Keys + {"exists"}
      && forall k :: k in src && k != "exists" ==> r[k] == src[k]
  {
    if parsed.Some? && parsed.value.Obj? then parsed.value.fields["exists" := Bool(true)]
    else if parsed.Some? && parsed.value.Arr? && |parsed.value.items| > 0 then
      var first := parsed.value.items[0];
      (if first.Obj? then first.fields else map[])["exists" := Bool(true)]
    else map["exists" := Bool(true)]
  }
}
