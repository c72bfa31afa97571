/**
 * The single-call analyser of the review UI: after one model call over the whole bundle,
 * the model's document list is mapped onto document categories (`_map`, with the name
 * normaliser `_n` and the type mapper `_mt`), categories the page text alone reveals are
 * added (`_td` and the augmentation step of `analyze`), and the built review record is
 * patched up (`_fix`, `_fix_housing`).
 *
 * The rasterising, the model call and its retries, JSON parsing and `_build_result`
 * (modelled in UnifiedResult) are not part of this module: the model's document list, the
 * page text and the built record arrive as parameters. The review record is a value; the
 * fix-up returns it updated.
 */
module SingleShotAnalyzer {
  import opened Wrappers
  import opened Text
  import opened Values
  import opened KeywordTables
  import opened DataModels
  import T = DocTypes
  import A = UnifiedPdfAnalyzer
  import Numbers
  import DualAnalysis

  // ================================================================== _n

  /** The characters of `\s`, i.e. those `str.isspace()` accepts. */
  const SpaceChars: set<char> := {' ', '\t', '\n', '\r', '\U{000B}', '\U{000C}', '\U{001C}', '\U{001D}',
    '\U{001E}', '\U{001F}', '\U{0085}', '\U{00A0}', '\U{1680}', '\U{2000}', '\U{2001}', '\U{2002}',
    '\U{2003}', '\U{2004}', '\U{2005}', '\U{2006}', '\U{2007}', '\U{2008}', '\U{2009}', '\U{200A}',
    '\U{2028}', '\U{2029}', '\U{202F}', '\U{205F}', '\U{3000}'}

  /** The other characters of the class `[\s\-_()（）·:：　]`. */
  const Punctuation: set<char> := {'-', '_', '(', ')', '（', '）', '·', ':', '：', '\U{3000}'}

  const Dropped: set<char> := SpaceChars + Punctuation

  lemma SpaceCharsExact(c: char)
    ensures c in SpaceChars <==> IsSpace(c)
  {
  }

  /** A string with no dropped character has no space at either end, so `strip` keeps it. */
  lemma StripKeepsUndropped(w: string)
    requires forall i :: 0 <= i < |w| ==> w[i] !in Dropped
    ensures Strip(w) == w
  {
    if w != [] {
      SpaceCharsExact(w[0]);
      SpaceCharsExact(w[|w| - 1]);
    }
    StripNoEdgeSpace(w);
  }

  /** `_n(s)`: every whitespace and punctuation character of the class removed, then stripped. */
  function Normalize(s: string): (r: string)
    ensures |r| <= |s|
    ensures forall i :: 0 <= i < |r| ==> r[i] !in Dropped
  {
    StripKeepsUndropped(Without(s, Dropped));
    Strip(Without(s, Dropped))
  }

  /** The closing strip of `_n` never removes anything: the class already took every space. */
  lemma NormalizeIsRemoval(s: string)
    ensures Normalize(s) == Without(s, Dropped)
  {
    StripKeepsUndropped(Without(s, Dropped));
  }

  /** Normalising twice changes nothing. */
  lemma NormalizeIdempotent(s: string)
    ensures Normalize(Normalize(s)) == Normalize(s)
  {
    NormalizeIsRemoval(s);
    NormalizeIsRemoval(Normalize(s));
    WithoutIdempotent(s, Dropped);
  }

  // ================================================================== tables

  /** `_NORM`: the exact normalised names. */
  const NormNames: seq<(string, T.DocType)> := NormNames1 + NormNames2 + NormNames3 + NormNames4 + NormNames5

  const NormNames1: seq<(string, T.DocType)> := [
    ("주택매도신청서", T.HousingSaleApplication), ("매도신청서", T.HousingSaleApplication),
    ("매도신청주택임대현황", T.RentalStatus), ("임대현황", T.RentalStatus),
    ("위임장", T.PowerOfAttorney), ("개인정보동의서", T.ConsentForm),
    ("개인정보수집이용동의서", T.ConsentForm)]

  const NormNames2: seq<(string, T.DocType)> := [
    ("개인정보수집이용및제공동의서", T.ConsentForm), ("청렴서약서", T.IntegrityPledge),
    ("공사직원확인서", T.LhEmployeeConfirm), ("공사직원여부확인서", T.LhEmployeeConfirm),
    ("인감증명서", T.SealCertificate), ("건축물대장표제부", T.BuildingLedgerTitle),
    ("표제부", T.BuildingLedgerTitle)]

  const NormNames3: seq<(string, T.DocType)> := [
    ("건축물대장총괄표제부", T.BuildingLedgerSummary), ("총괄표제부", T.BuildingLedgerSummary),
    ("건축물대장전유부", T.BuildingLedgerExclusive), ("전유부", T.BuildingLedgerExclusive),
    ("건축물현황도", T.BuildingLayout), ("토지대장", T.LandLedger),
    ("토지이용계획확인원", T.LandUsePlan)]

  const NormNames4: seq<(string, T.DocType)> := [
    ("토지이용계획", T.LandUsePlan), ("건물등기부등본", T.BuildingRegistry),
    ("건물등기사항전부증명서", T.BuildingRegistry), ("토지등기부등본", T.LandRegistry),
    ("토지등기사항전부증명서", T.LandRegistry), ("등기부등본", T.BuildingRegistry),
    ("등기사항전부증명서", T.BuildingRegistry)]

  const NormNames5: seq<(string, T.DocType)> := [
    ("준공도면", T.AsBuiltDrawing), ("시험성적서", T.TestCertificate),
    ("납품확인서", T.DeliveryConfirmation), ("중개사무소등록증", T.RealtorRegistration),
    ("사업자등록증", T.BusinessRegistration)]

  /** `_KW`: keywords searched for in order. */
  const Keywords: seq<(string, T.DocType)> := Keywords1 + Keywords2 + Keywords3 + Keywords4

  const Keywords1: seq<(string, T.DocType)> := [
    ("매도신청", T.HousingSaleApplication), ("임대현황", T.RentalStatus),
    ("위임장", T.PowerOfAttorney), ("개인정보", T.ConsentForm), ("동의서", T.ConsentForm),
    ("청렴", T.IntegrityPledge)]

  const Keywords2: seq<(string, T.DocType)> := [
    ("직원확인", T.LhEmployeeConfirm), ("직원여부", T.LhEmployeeConfirm),
    ("인감증명", T.SealCertificate), ("총괄표제부", T.BuildingLedgerSummary),
    ("전유부", T.BuildingLedgerExclusive), ("표제부", T.BuildingLedgerTitle)]

  const Keywords3: seq<(string, T.DocType)> := [
    ("현황도", T.BuildingLayout), ("토지이용", T.LandUsePlan), ("토지대장", T.LandLedger),
    ("토지등기", T.LandRegistry), ("건물등기", T.BuildingRegistry), ("등기사항", T.BuildingRegistry)]

  const Keywords4: seq<(string, T.DocType)> := [
    ("등기부등본", T.BuildingRegistry), ("준공도면", T.AsBuiltDrawing), ("시험성적", T.TestCertificate),
    ("납품확인", T.DeliveryConfirmation), ("사업자등록", T.BusinessRegistration)]

  /** `_SAFETY`: per category, the words whose presence in the page text reveals it. */
  const SafetyWords: seq<(seq<string>, T.DocType)> := SafetyWords1 + SafetyWords2 + SafetyWords3

  const SafetyWords1: seq<(seq<string>, T.DocType)> := [
    (["주택매도신청서", "매도신청서"], T.HousingSaleApplication), (["임대현황"], T.RentalStatus),
    (["위임장"], T.PowerOfAttorney), (["개인정보"], T.ConsentForm), (["청렴서약"], T.IntegrityPledge),
    (["직원확인", "공사직원"], T.LhEmployeeConfirm)]

  const SafetyWords2: seq<(seq<string>, T.DocType)> := [
    (["인감증명서"], T.SealCertificate), (["총괄표제부"], T.BuildingLedgerSummary),
    (["전유부"], T.BuildingLedgerExclusive), (["표제부", "건축물대장"], T.BuildingLedgerTitle),
    (["건축물현황도"], T.BuildingLayout), (["토지이용계획"], T.LandUsePlan)]

  const SafetyWords3: seq<(seq<string>, T.DocType)> := [
    (["토지대장"], T.LandLedger), (["등기부등본", "등기사항전부증명"], T.BuildingRegistry),
    (["준공도면"], T.AsBuiltDrawing), (["시험성적서"], T.TestCertificate)]

  // ================================================================== _mt

  /** The mapping of `_mt` over its two tables. */
  function MapTypeWith(names: seq<(string, T.DocType)>, keywords: seq<(string, T.DocType)>, raw: string)
    : (r: T.DocType)
    ensures raw == [] ==> r == T.Unknown
  {
    if raw == [] then T.Unknown
    else
      var n := Normalize(raw);
      var exact := Lookup(names, n);
      if exact.Some? then exact.value
      else
        var k := FirstKeyword(keywords, n);
        if k.Some? then k.value
        else
          var k2 := FirstKeyword(keywords, Without(raw, {' '}));
          if k2.Some? then k2.value else T.Unknown
  }

  /** `_mt(raw)`: the category the model's type name stands for. */
  function MapType(raw: string): (r: T.DocType)
    ensures raw == [] ==> r == T.Unknown
  {
    MapTypeWith(NormNames, Keywords, raw)
  }

  /** An exact hit on the normalised name decides. */
  lemma ExactNameWins(names: seq<(string, T.DocType)>, keywords: seq<(string, T.DocType)>, raw: string, i: nat)
    requires raw != [] && i < |names| && names[i].0 == Normalize(raw)
    requires forall j :: 0 <= j < i ==> names[j].0 != names[i].0
    ensures MapTypeWith(names, keywords, raw) == names[i].1
  {
    LookupFirst(names, Normalize(raw), i);
  }

  /** Without an exact hit, the first keyword found in the normalised name decides. */
  lemma NormalizedKeywordWins(names: seq<(string, T.DocType)>, keywords: seq<(string, T.DocType)>, raw: string, i: int)
    requires raw != [] && Lookup(names, Normalize(raw)).None? && FirstKeyAt(Normalize(raw), keywords, i)
    ensures MapTypeWith(names, keywords, raw) == keywords[i].1
  {
    FirstKeywordAt(keywords, Normalize(raw), i);
  }

  /** Then the first keyword found in the name with its spaces removed. */
  lemma RawKeywordWins(names: seq<(string, T.DocType)>, keywords: seq<(string, T.DocType)>, raw: string, i: int)
    requires raw != [] && Lookup(names, Normalize(raw)).None? && !ContainsAny(Normalize(raw), Keys(keywords))
    requires FirstKeyAt(Without(raw, {' '}), keywords, i)
    ensures MapTypeWith(names, keywords, raw) == keywords[i].1
  {
    FirstKeywordAt(keywords, Without(raw, {' '}), i);
  }

  /** A name is UNKNOWN exactly when it is empty or no table entry and no keyword applies. */
  lemma MapTypeUnknownIff(names: seq<(string, T.DocType)>, keywords: seq<(string, T.DocType)>, raw: string)
    requires forall i :: 0 <= i < |names| ==> names[i].1 != T.Unknown
    requires forall i :: 0 <= i < |keywords| ==> keywords[i].1 != T.Unknown
    ensures MapTypeWith(names, keywords, raw) == T.Unknown <==>
      raw == [] || (Lookup(names, Normalize(raw)).None? && !ContainsAny(Normalize(raw), Keys(keywords))
        && !ContainsAny(Without(raw, {' '}), Keys(keywords)))
  {
    if raw != [] {
      var n := Normalize(raw);
      var i := FirstHit(n, Keys(keywords));
      var j := FirstHit(Without(raw, {' '}), Keys(keywords));
    }
  }

  predicate Hangul(c: char) { '가' <= c <= '힣' }

  /** Removing characters outside a word keeps every occurrence of the word. */
  lemma {:induction false} ContainsWithout(s: string, k: string, drop: set<char>)
    requires Contains(s, k) && forall i :: 0 <= i < |k| ==> k[i] !in drop
    ensures Contains(Without(s, drop), k)
  {
    ContainsIff(s, k);
    var i :| OccursAt(s, k, i);
    var a, b := s[..i], s[i + |k|..];
    assert s == a + k + b;
    WithoutConcat(a + k, b, drop);
    WithoutConcat(a, k, drop);
    WithoutNoop(k, drop);
    ContainsSelfConcat(Without(a, drop), k, Without(b, drop));
  }

  /**
   * For keywords written in Hangul only, the last step of `_mt` never decides: a keyword in
   * the name with its spaces removed is also in the normalised name.
   */
  lemma RawStepSubsumed(keywords: seq<(string, T.DocType)>, raw: string)
    requires forall i, j :: 0 <= i < |keywords| && 0 <= j < |keywords[i].0| ==> Hangul(keywords[i].0[j])
    ensures ContainsAny(Without(raw, {' '}), Keys(keywords)) ==> ContainsAny(Normalize(raw), Keys(keywords))
  {
    var w := Without(raw, {' '});
    if ContainsAny(w, Keys(keywords)) {
      var k :| k in Keys(keywords) && Contains(w, k);
      var i :| 0 <= i < |keywords| && Keys(keywords)[i] == k;
      forall j | 0 <= j < |k|
        ensures k[j] !in Dropped
      {
        HangulNotDropped(keywords[i].0[j]);
      }
      ContainsWithout(w, k, Dropped);
      WithoutTwice(raw, {' '}, Dropped);
      NormalizeIsRemoval(raw);
      assert Contains(Normalize(raw), k);
    }
  }

  lemma HangulNotDropped(c: char)
    requires Hangul(c)
    ensures c !in Dropped
  {
  }

  /** Removing `a`, then `b` where `a` is part of `b`, is removing `b`. */
  lemma {:induction false} WithoutTwice(s: string, a: set<char>, b: set<char>)
    requires a <= b
    ensures Without(Without(s, a), b) == Without(s, b)
  {
    if s != [] {
      WithoutTwice(s[1..], a, b);
      if s[0] !in a {
        assert Without(s, a) == [s[0]] + Without(s[1..], a);
        assert ([s[0]] + Without(s[1..], a))[1..] == Without(s[1..], a);
      }
    }
  }

  /**
   * In `_mt` itself the last step is dead: a name that neither matches a table name nor
   * contains a keyword once normalised is UNKNOWN.
   */
  lemma MapTypeRawStepDead(raw: string)
    requires Lookup(NormNames, Normalize(raw)).None? && !ContainsAny(Normalize(raw), Keys(Keywords))
    ensures MapType(raw) == T.Unknown
  {
    KeywordsAreHangul();
    RawStepSubsumed(Keywords, raw);
  }

  lemma KeywordsAreHangul()
    ensures forall i, j :: 0 <= i < |Keywords| && 0 <= j < |Keywords[i].0| ==> Hangul(Keywords[i].0[j])
  {
  }

  lemma TablesKnown()
    ensures forall i :: 0 <= i < |NormNames| ==> NormNames[i].1 != T.Unknown
    ensures forall i :: 0 <= i < |Keywords| ==> Keywords[i].1 != T.Unknown
  {
  }

  // ================================================================== _td

  /** The categories of `table` with a word in `t`, in table order. */
  function DetectedWith(table: seq<(seq<string>, T.DocType)>, t: string): (r: seq<T.DocType>)
    ensures forall d :: d in r <==> exists i :: 0 <= i < |table| && table[i].1 == d && ContainsAny(t, table[i].0)
    ensures |r| <= |table|
  {
    if table == [] then []
    else
      var rest := DetectedWith(table[1..], t);
      assert forall i :: 1 <= i < |table| ==> table[1..][i - 1] == table[i];
      (if ContainsAny(t, table[0].0) then [table[0].1] else []) + rest
  }

  /** A table naming each category once detects each category at most once. */
  lemma {:induction false} DetectedDistinct(table: seq<(seq<string>, T.DocType)>, t: string)
    requires forall i, j :: 0 <= i < j < |table| ==> table[i].1 != table[j].1
    ensures NoDuplicates(DetectedWith(table, t))
  {
    if table != [] {
      assert forall i, j :: 0 <= i < j < |table[1..]| ==> table[1..][i].1 != table[1..][j].1 by {
        assert forall i :: 0 <= i < |table[1..]| ==> table[1..][i] == table[i + 1];
      }
      DetectedDistinct(table[1..], t);
      var rest := DetectedWith(table[1..], t);
      forall d | d in rest
        ensures d != table[0].1
      {
        var i :| 0 <= i < |table[1..]| && table[1..][i].1 == d && ContainsAny(t, table[1..][i].0);
        assert table[i + 1].1 == d;
      }
      if ContainsAny(t, table[0].0) {
        var r := [table[0].1] + rest;
        forall i, j | 0 <= i < j < |r|
          ensures r[i] != r[j]
        {
          assert r[j] == rest[j - 1] && r[j] in rest;
          if i > 0 {
            assert r[i] == rest[i - 1];
          }
        }
      }
    }
  }

  lemma SafetyTypesDistinct()
    ensures forall i, j :: 0 <= i < j < |SafetyWords| ==> SafetyWords[i].1 != SafetyWords[j].1
  {
  }

  /** `_td(text)`: the categories whose words occur in the text with spaces and newlines removed. */
  function TextDetected(text: string): (r: seq<T.DocType>)
    ensures NoDuplicates(r)
    ensures forall d :: d in r <==>
      exists i :: 0 <= i < |SafetyWords| && SafetyWords[i].1 == d && ContainsAny(A.Squeeze(text), SafetyWords[i].0)
  {
    SafetyTypesDistinct();
    DetectedDistinct(SafetyWords, A.Squeeze(text));
    DetectedWith(SafetyWords, A.Squeeze(text))
  }

  /** The words whose presence anywhere in the text marks a corporation. */
  const CorporationWords: seq<string> := ["주식회사", "(주)", "㈜", "건설", "개발", "법인", "산업"]

  /** `corp` in `analyze`: a corporation word occurs in the text with its spaces removed. */
  predicate TextSaysCorporation(allText: string)
  {
    ContainsAny(Without(allText, {' '}), CorporationWords)
  }

  // ================================================================== _map

  /** `d.get("document_type", "")` as a string: anything but a string reads as empty. */
  function RawType(d: Dict): string
  {
    var v := GetOr(d, "document_type", Str(""));
    if v.Str? then v.s else ""
  }

  function GetOr(d: Dict, k: string, fallback: Value): (r: Value)
    ensures k in d ==> r == d[k]
    ensures k !in d ==> r == fallback
  {
    if k in d then d[k] else fallback
  }

  /** `pages = d.get("pages", [])`, an int wrapped in a list; the integer entries of a list. */
  function PagesOf(d: Dict): (r: seq<int>)
    ensures GetOr(d, "pages", Arr([])).Int? ==> r == [GetOr(d, "pages", Arr([])).i]
  {
    match GetOr(d, "pages", Arr([]))
    case Int(i) => [i]
    case Bool(b) => [if b then 1 else 0]
    case Arr(items) => IntItems(items)
    case _ => []
  }

  function IntItems(items: seq<Value>): (r: seq<int>)
    ensures |r| <= |items|
  {
    if items == [] then []
    else (if items[0].Int? then [items[0].i] else []) + IntItems(items[1..])
  }

  /** `data = d.get("data", {})`, replaced by {} when not a dict, with `exists` set. */
  function DataOf(d: Dict): (r: Dict)
    ensures "exists" in r && r["exists"] == Bool(true)
    ensures forall k :: k in r && k != "exists" ==> GetOr(d, "data", Obj(map[])).Obj? && k in GetOr(d, "data", Obj(map[])).fields
  {
    var v := GetOr(d, "data", Obj(map[]));
    var data := if v.Obj? then v.fields else map[];
    data["exists" := Bool(true)]
  }

  /** A building-registry hit whose raw name mentions land is the land registry. */
  function Relabelled(t: T.DocType, rt: string): (r: T.DocType)
    ensures r == T.LandRegistry <==> t == T.LandRegistry || (t == T.BuildingRegistry && Contains(rt, "토지"))
    ensures r != T.Unknown <==> t != T.Unknown
  {
    if t == T.BuildingRegistry && Contains(rt, "토지") then T.LandRegistry else t
  }

  /** The document one item of the model's list gives, if any. */
  function DocumentOf(item: Value): (r: Option<A.DocumentInfo>)
    ensures r.None? <==> !item.Obj? || MapType(RawType(item.fields)) == T.Unknown
    ensures r.Some? ==> r.value.docType != T.Unknown && r.value.confidence == 0.85
    ensures r.Some? ==> r.value.docType == Relabelled(MapType(RawType(item.fields)), RawType(item.fields))
    ensures r.Some? ==>
      r.value.mergedData.Obj? && "exists" in r.value.mergedData.fields && r.value.mergedData.fields["exists"] == Bool(true)
  {
    if !item.Obj? then None
    else
      var rt := RawType(item.fields);
      var dt := MapType(rt);
      if dt == T.Unknown then None
      else Some(A.DocumentInfo(Relabelled(dt, rt), PagesOf(item.fields), Obj(DataOf(item.fields)), 0.85))
  }

  /** The documents `f` gives for the items, in order, leaving out the items it rejects. */
  function MappedBy(raw: seq<Value>, f: Value -> Option<A.DocumentInfo>): (r: seq<A.DocumentInfo>)
    ensures |r| <= |raw|
  {
    if raw == [] then []
    else
      var d := f(raw[|raw| - 1]);
      MappedBy(raw[..|raw| - 1], f) + (if d.Some? then [d.value] else [])
  }

  /** Each document `MappedBy` lists is what `f` gives for one of the items. */
  lemma {:induction false} MappedByFrom(raw: seq<Value>, f: Value -> Option<A.DocumentInfo>)
    ensures forall i :: 0 <= i < |MappedBy(raw, f)| ==> exists j :: 0 <= j < |raw| && f(raw[j]) == Some(MappedBy(raw, f)[i])
  {
    if raw != [] {
      var init := raw[..|raw| - 1];
      MappedByFrom(init, f);
      var d := f(raw[|raw| - 1]);
      var pre := MappedBy(init, f);
      var r := MappedBy(raw, f);
      assert r == pre + (if d.Some? then [d.value] else []);
      forall i | 0 <= i < |r|
        ensures exists j :: 0 <= j < |raw| && f(raw[j]) == Some(r[i])
      {
        if i < |pre| {
          assert r[i] == pre[i];
          var j :| 0 <= j < |init| && f(init[j]) == Some(pre[i]);
          assert raw[j] == init[j];
        } else {
          assert d.Some? && r[i] == d.value;
          assert f(raw[|raw| - 1]) == Some(r[i]);
        }
      }
    } else {
      assert MappedBy(raw, f) == [];
    }
  }

  /** The documents `_map` returns for the model's list. */
  function Mapped(raw: seq<Value>): (r: seq<A.DocumentInfo>)
    ensures |r| <= |raw|
  {
    MappedBy(raw, DocumentOf)
  }

  /** A mapped document is known, reported present, and carries the fixed confidence 0.85. */
  predicate WellMapped(d: A.DocumentInfo)
  {
    d.docType != T.Unknown && d.confidence == 0.85
    && d.mergedData.Obj? && "exists" in d.mergedData.fields && d.mergedData.fields["exists"] == Bool(true)
  }

  /** Each mapped document is the document of one item of the list. */
  lemma {:induction false} MappedFromItems(raw: seq<Value>)
    ensures forall i :: 0 <= i < |Mapped(raw)| ==> exists j :: 0 <= j < |raw| && DocumentOf(raw[j]) == Some(Mapped(raw)[i])
  {
    MappedByFrom(raw, DocumentOf);
    forall i | 0 <= i < |Mapped(raw)|
      ensures exists j :: 0 <= j < |raw| && DocumentOf(raw[j]) == Some(Mapped(raw)[i])
    {
      var f := DocumentOf;
      var j :| 0 <= j < |raw| && f(raw[j]) == Some(MappedBy(raw, f)[i]);
      assert f(raw[j]) == DocumentOf(raw[j]);
    }
    assert forall i :: 0 <= i < |Mapped(raw)| ==> exists j :: 0 <= j < |raw| && DocumentOf(raw[j]) == Some(Mapped(raw)[i]);
  }

  /** Every mapped document is known, reported present and at confidence 0.85. */
  lemma MappedWell(raw: seq<Value>)
    ensures forall i :: 0 <= i < |Mapped(raw)| ==> WellMapped(Mapped(raw)[i])
  {
    MappedFromItems(raw);
    forall i | 0 <= i < |Mapped(raw)|
      ensures WellMapped(Mapped(raw)[i])
    {
      var j :| 0 <= j < |raw| && DocumentOf(raw[j]) == Some(Mapped(raw)[i]);
    }
  }

  /** `_map(raw)` */
  method MapDocuments(raw: seq<Value>) returns (documents: seq<A.DocumentInfo>)
    ensures documents == Mapped(raw)
  {
    documents := [];
    for i := 0 to |raw|
      invariant documents == Mapped(raw[..i])
    {
      assert raw[..i + 1][..i] == raw[..i];
      var d := DocumentOf(raw[i]);
      if d.Some? {
        documents := documents + [d.value];
      }
    }
    assert raw[..|raw|] == raw;
  }

  // ================================================================== augmentation in analyze

  /** The document added for a category the text alone reveals. */
  function TextDocument(t: T.DocType): (d: A.DocumentInfo)
    ensures d.docType == t && d.pages == [] && d.confidence == 0.7
  {
    A.DocumentInfo(t, [], Obj(map["exists" := Bool(true)]), 0.7)
  }

  /** The documents added for the detected categories missing from `existing`, in detection order. */
  function Added(existing: seq<T.DocType>, detected: seq<T.DocType>): (r: seq<A.DocumentInfo>)
    ensures |r| <= |detected|
  {
    if detected == [] then []
    else
      var t := detected[|detected| - 1];
      Added(existing, detected[..|detected| - 1]) + (if t !in existing then [TextDocument(t)] else [])
  }

  /** The documents after the augmentation step. */
  function Augmented(documents: seq<A.DocumentInfo>, detected: seq<T.DocType>): seq<A.DocumentInfo>
  {
    documents + Added(A.Types(documents), detected)
  }

  /** The step of `analyze` that appends one document per detected category not yet present. */
  method Augment(documents: seq<A.DocumentInfo>, detected: seq<T.DocType>) returns (result: seq<A.DocumentInfo>)
    ensures result == Augmented(documents, detected)
  {
    var existing := A.Types(documents);
    result := documents;
    for i := 0 to |detected|
      invariant result == documents + Added(existing, detected[..i])
    {
      assert detected[..i + 1][..i] == detected[..i];
      if detected[i] !in existing {
        result := result + [TextDocument(detected[i])];
      }
    }
    assert detected[..|detected|] == detected;
  }

  /**
   * Each added document is the text document of a detected category that was missing: it has
   * that category, no page and confidence 0.7.
   */
  lemma {:induction false} AddedSpec(existing: seq<T.DocType>, detected: seq<T.DocType>)
    ensures forall i :: 0 <= i < |Added(existing, detected)| ==>
      Added(existing, detected)[i] == TextDocument(Added(existing, detected)[i].docType)
      && Added(existing, detected)[i].docType in detected && Added(existing, detected)[i].docType !in existing
  {
    if detected != [] {
      var init := detected[..|detected| - 1];
      var t := detected[|detected| - 1];
      AddedSpec(existing, init);
      var prev := Added(existing, init);
      var r := Added(existing, detected);
      assert r == prev + (if t !in existing then [TextDocument(t)] else []);
      forall i | 0 <= i < |r|
        ensures r[i] == TextDocument(r[i].docType) && r[i].docType in detected && r[i].docType !in existing
      {
        if i < |prev| {
          assert r[i] == prev[i];
          assert prev[i].docType in init;
        }
      }
    }
  }

  /** Every detected category that was missing gets an added document. */
  lemma {:induction false} AddedCovers(existing: seq<T.DocType>, detected: seq<T.DocType>)
    ensures forall t :: t in detected && t !in existing ==> t in A.Types(Added(existing, detected))
  {
    if detected != [] {
      var init := detected[..|detected| - 1];
      var t := detected[|detected| - 1];
      assert detected == init + [t];
      AddedCovers(existing, init);
      var prev := Added(existing, init);
      var r := Added(existing, detected);
      assert r == prev + (if t !in existing then [TextDocument(t)] else []);
      var tp := A.Types(prev);
      var tr := A.Types(r);
      forall u | u in detected && u !in existing
        ensures u in tr
      {
        if u == t {
          assert tr[|r| - 1] == r[|r| - 1].docType == t;
        } else {
          assert u in init;
          var k :| 0 <= k < |tp| && tp[k] == u;
          assert tr[k] == r[k].docType == prev[k].docType;
        }
      }
    }
  }

  /** Distinct detected categories are added at most once each. */
  lemma {:induction false} AddedDistinct(existing: seq<T.DocType>, detected: seq<T.DocType>)
    requires NoDuplicates(detected)
    ensures NoDuplicates(A.Types(Added(existing, detected)))
  {
    if detected != [] {
      var init := detected[..|detected| - 1];
      var t := detected[|detected| - 1];
      assert NoDuplicates(init) by {
        assert forall i :: 0 <= i < |init| ==> init[i] == detected[i];
      }
      AddedDistinct(existing, init);
      AddedSpec(existing, init);
      var prev := Added(existing, init);
      var r := Added(existing, detected);
      if t !in existing {
        assert r == prev + [TextDocument(t)];
        forall i | 0 <= i < |prev|
          ensures prev[i].docType != t
        {
          assert prev[i].docType in init;
        }
        forall i, j | 0 <= i < j < |r|
          ensures A.Types(r)[i] != A.Types(r)[j]
        {
          if j < |prev| {
            assert A.Types(r)[i] == A.Types(prev)[i] && A.Types(r)[j] == A.Types(prev)[j];
          }
        }
      } else {
        assert r == prev;
      }
    }
  }

  /** A category present after the augmentation was among the documents or detected. */
  lemma AugmentedTypesFrom(documents: seq<A.DocumentInfo>, detected: seq<T.DocType>, t: T.DocType)
    requires t in A.Types(Augmented(documents, detected))
    ensures t in A.Types(documents) || t in detected
  {
    var existing := A.Types(documents);
    var added := Added(existing, detected);
    var r := Augmented(documents, detected);
    AddedSpec(existing, detected);
    var k :| 0 <= k < |r| && A.Types(r)[k] == t;
    if k >= |documents| {
      assert r[k] == added[k - |documents|];
    } else {
      assert existing[k] == t;
    }
  }

  /** Every category among the documents or detected is present after the augmentation. */
  lemma AugmentedTypesCover(documents: seq<A.DocumentInfo>, detected: seq<T.DocType>, t: T.DocType)
    requires t in A.Types(documents) || t in detected
    ensures t in A.Types(Augmented(documents, detected))
  {
    var existing := A.Types(documents);
    var added := Added(existing, detected);
    var r := Augmented(documents, detected);
    if t in existing {
      var k :| 0 <= k < |documents| && existing[k] == t;
      assert A.Types(r)[k] == t;
    } else {
      AddedCovers(existing, detected);
      var k :| 0 <= k < |added| && A.Types(added)[k] == t;
      assert A.Types(r)[|documents| + k] == t;
    }
  }

  /** The documents are kept in front, and no category already present gets a further document. */
  lemma AugmentedKeepsDocuments(documents: seq<A.DocumentInfo>, detected: seq<T.DocType>)
    ensures Augmented(documents, detected)[..|documents|] == documents
    ensures forall i :: |documents| <= i < |Augmented(documents, detected)| ==>
      Augmented(documents, detected)[i].docType !in A.Types(documents)
  {
    var existing := A.Types(documents);
    var added := Added(existing, detected);
    var r := Augmented(documents, detected);
    AddedSpec(existing, detected);
    forall i | |documents| <= i < |r|
      ensures r[i].docType !in existing
    {
      assert r[i] == added[i - |documents|];
    }
  }

  // ================================================================== _fix_housing

  const NullNames: set<string> := {"null", "none"}

  /** `v and str(v).strip() and str(v).lower() not in ("null", "none")` */
  predicate Accepted(v: Value)
  {
    Truthy(v) && Strip(DualAnalysis.Render(v)) != [] && Lower(DualAnalysis.Render(v)) !in NullNames
  }

  /** Index of the first true flag, or -1. */
  function FirstTrue(flags: seq<bool>): (r: int)
    ensures -1 <= r < |flags|
    ensures r >= 0 ==> flags[r]
    ensures forall j :: 0 <= j < |flags| && (r == -1 || j < r) ==> !flags[j]
  {
    if flags == [] then -1
    else if flags[0] then 0
    else
      var t := FirstTrue(flags[1..]);
      assert forall j :: 1 <= j < |flags| ==> flags[1..][j - 1] == flags[j];
      if t == -1 then -1 else t + 1
  }

  /** Per key, whether its value is accepted. */
  function AcceptedFlags(data: Dict, keys: seq<string>): (r: seq<bool>)
    ensures |r| == |keys| && forall i :: 0 <= i < |keys| ==> r[i] == Accepted(Get(data, keys[i]))
  {
    seq(|keys|, i requires 0 <= i < |keys| => Accepted(Get(data, keys[i])))
  }

  /** One owner field: the stripped text of the first accepted key, else as it was. */
  function OwnerField(current: Option<string>, data: Dict, keys: seq<string>): (r: Option<string>)
    ensures r != current ==> r.Some? && r.value != []
  {
    var i := FirstTrue(AcceptedFlags(data, keys));
    if i >= 0 then Some(Strip(DualAnalysis.Render(Get(data, keys[i])))) else current
  }

  /** Key `i` is the first whose value is accepted. */
  predicate FirstAcceptedAt(data: Dict, keys: seq<string>, i: int)
  {
    0 <= i < |keys| && Accepted(Get(data, keys[i])) && forall j :: 0 <= j < i ==> !Accepted(Get(data, keys[j]))
  }

  /** The first accepted key supplies the field, stripped. */
  lemma OwnerFieldFirst(current: Option<string>, data: Dict, keys: seq<string>, i: int)
    requires FirstAcceptedAt(data, keys, i)
    ensures OwnerField(current, data, keys) == Some(Strip(DualAnalysis.Render(Get(data, keys[i]))))
  {
    var flags := AcceptedFlags(data, keys);
    var k := FirstTrue(flags);
    assert flags[i];
    assert k != -1 && !(k > i);
    assert flags[k];
    assert k == i;
  }

  /** With no accepted key the field keeps its value. */
  lemma OwnerFieldKept(current: Option<string>, data: Dict, keys: seq<string>)
    requires forall j :: 0 <= j < |keys| ==> !Accepted(Get(data, keys[j]))
    ensures OwnerField(current, data, keys) == current
  {
    var flags := AcceptedFlags(data, keys);
    assert forall j :: 0 <= j < |keys| ==> !flags[j];
  }

  const NameKeys: seq<string> := ["owner_name", "name", "성명"]
  const BirthKeys: seq<string> := ["owner_birth", "birth_date", "생년월일"]
  const AddressKeys: seq<string> := ["owner_address", "address", "주소"]
  const PhoneKeys: seq<string> := ["owner_phone", "phone", "연락처"]
  const EmailKeys: seq<string> := ["owner_email", "email", "이메일"]

  /** The owner with each field taken from its keys. */
  function OwnerFilled(o: OwnerInfo, data: Dict): (r: OwnerInfo)
    ensures r.isComplete == o.isComplete
  {
    o.(name := OwnerField(o.name, data, NameKeys), birthDate := OwnerField(o.birthDate, data, BirthKeys),
       address := OwnerField(o.address, data, AddressKeys), phone := OwnerField(o.phone, data, PhoneKeys),
       email := OwnerField(o.email, data, EmailKeys))
  }

  /** A date field: `str(v).strip()` when `v` is truthy and not "null"/"none". */
  function DateField(current: Option<string>, v: Value): (r: Option<string>)
    ensures !Truthy(v) ==> r == current
    ensures Truthy(v) && Lower(DualAnalysis.Render(v)) !in NullNames ==> r == Some(Strip(DualAnalysis.Render(v)))
  {
    if Truthy(v) && Lower(DualAnalysis.Render(v)) !in NullNames then Some(Strip(DualAnalysis.Render(v))) else current
  }

  /** `float(v)`, or None where it raises; strings are read as decimals. */
  function PyFloat(v: Value): (r: Option<real>)
    ensures IsNumber(v) ==> r == Some(AsReal(v))
    ensures v.Null? || v.Arr? || v.Obj? ==> r.None?
  {
    match v
    case Str(s) => Numbers.ParseFloat(Strip(s))
    case Null => None
    case Arr(_) => None
    case Obj(_) => None
    case _ => Some(AsReal(v))
  }

  /** The land area: `float(la)` when `la` is not None and converts. */
  function LandAreaField(current: Option<real>, v: Value): (r: Option<real>)
    ensures v == Null || PyFloat(v).None? ==> r == current
    ensures v != Null && PyFloat(v).Some? ==> r == PyFloat(v)
  {
    if v != Null && PyFloat(v).Some? then PyFloat(v) else current
  }

  /** The application fields `_fix_housing` touches. */
  function ApplicationFilled(app: HousingSaleApplication, data: Dict): (r: HousingSaleApplication)
    ensures r.base == app.base && r.owner.isComplete == app.owner.isComplete
    ensures r.seal.sealExists <==> app.seal.sealExists || IsTrue(Get(data, "has_seal"))
  {
    var seal := if IsTrue(Get(data, "has_seal")) then app.seal.(sealExists := true) else app.seal;
    app.(owner := OwnerFilled(app.owner, data), seal := seal,
         writtenDate := DateField(app.writtenDate, Get(data, "written_date")),
         approvalDate := DateField(app.approvalDate, Get(data, "approval_date")),
         landArea := LandAreaField(app.landArea, Get(data, "land_area")))
  }

  /** `_fix_housing(result, data)` */
  function FixHousing(r: ReviewResult, data: Dict): (r': ReviewResult)
    ensures r'.application == ApplicationFilled(r.application, data)
    ensures r'.corporate.isCorporation <==> r.corporate.isCorporation || IsTrue(Get(data, "is_corporation"))
    ensures r' == r.(application := r'.application, corporate := r'.corporate)
  {
    var corporate := if IsTrue(Get(data, "is_corporation")) then r.corporate.(isCorporation := true) else r.corporate;
    r.(application := ApplicationFilled(r.application, data), corporate := corporate)
  }

  // ================================================================== _fix

  /** The records `_fix` marks present, besides the sale application. */
  datatype Slot = ConsentSlot | PledgeSlot | LhSlot | SealSlot | TitleSlot | LandLedgerSlot | RegistrySlot

  /** The order `_fix` visits them in. */
  const Slots: seq<Slot> := [ConsentSlot, PledgeSlot, LhSlot, SealSlot, TitleSlot, LandLedgerSlot, RegistrySlot]

  function SlotType(s: Slot): T.DocType
  {
    match s
    case ConsentSlot => T.ConsentForm
    case PledgeSlot => T.IntegrityPledge
    case LhSlot => T.LhEmployeeConfirm
    case SealSlot => T.SealCertificate
    case TitleSlot => T.BuildingLedgerTitle
    case LandLedgerSlot => T.LandLedger
    case RegistrySlot => T.BuildingRegistry
  }

  function SlotIndex(s: Slot): (k: nat)
    ensures k < |Slots| && Slots[k] == s
  {
    match s
    case ConsentSlot => 0
    case PledgeSlot => 1
    case LhSlot => 2
    case SealSlot => 3
    case TitleSlot => 4
    case LandLedgerSlot => 5
    case RegistrySlot => 6
  }

  /** The `exists`/`status` record of a slot. */
  function BaseOf(r: ReviewResult, s: Slot): DocBase
  {
    match s
    case ConsentSlot => r.consent.base
    case PledgeSlot => r.pledge.base
    case LhSlot => r.lhConfirmation.base
    case SealSlot => r.ownerIdentity.sealCertificate
    case TitleSlot => r.ledgerTitle.base
    case LandLedgerSlot => r.landLedger.base
    case RegistrySlot => r.buildingRegistry.base
  }

  function WithBase(r: ReviewResult, s: Slot, b: DocBase): (r': ReviewResult)
    ensures BaseOf(r', s) == b
    ensures forall s' :: s' != s ==> BaseOf(r', s') == BaseOf(r, s')
    ensures r'.application == r.application && r'.corporate == r.corporate
  {
    match s
    case ConsentSlot => r.(consent := r.consent.(base := b))
    case PledgeSlot => r.(pledge := r.pledge.(base := b))
    case LhSlot => r.(lhConfirmation := r.lhConfirmation.(base := b))
    case SealSlot => r.(ownerIdentity := r.ownerIdentity.(sealCertificate := b))
    case TitleSlot => r.(ledgerTitle := r.ledgerTitle.(base := b))
    case LandLedgerSlot => r.(landLedger := r.landLedger.(base := b))
    case RegistrySlot => r.(buildingRegistry := r.buildingRegistry.(base := b))
  }

  /** `obj.exists = True; obj.status = VALID` */
  function MarkedValid(b: DocBase): (b': DocBase)
    ensures b'.present && b'.status == Valid && b'.issueDate == b.issueDate && b'.issues == b.issues
  {
    b.(present := true, status := Valid)
  }

  /** Category `t` is detected in the text or among the documents. */
  predicate Seen(t: T.DocType, detected: seq<T.DocType>, documents: seq<A.DocumentInfo>)
  {
    t in detected || t in A.Types(documents)
  }

  /** A record after `_fix`: marked present and valid when absent and its category was seen. */
  function Refreshed(b: DocBase, t: T.DocType, detected: seq<T.DocType>, documents: seq<A.DocumentInfo>): (b': DocBase)
    ensures b'.present <==> b.present || Seen(t, detected, documents)
    ensures b.present ==> b' == b
    ensures !b.present && Seen(t, detected, documents) ==> b'.status == Valid
    ensures !Seen(t, detected, documents) ==> b' == b
  {
    if !b.present && Seen(t, detected, documents) then MarkedValid(b) else b
  }

  /** One step of the loop over the seven records. */
  function SlotFixed(r: ReviewResult, detected: seq<T.DocType>, documents: seq<A.DocumentInfo>, s: Slot): ReviewResult
  {
    var b := BaseOf(r, s);
    if !b.present && Seen(SlotType(s), detected, documents) then WithBase(r, s, MarkedValid(b)) else r
  }

  /** The first `k` steps of the loop over the seven records. */
  function SlotsFixed(r: ReviewResult, detected: seq<T.DocType>, documents: seq<A.DocumentInfo>, k: nat): (r': ReviewResult)
    requires k <= |Slots|
    ensures r'.application == r.application && r'.corporate == r.corporate
  {
    if k == 0 then r else SlotFixed(SlotsFixed(r, detected, documents, k - 1), detected, documents, Slots[k - 1])
  }

  /** After `k` steps, exactly the records among the first `k` are refreshed. */
  lemma {:induction false} SlotsFixedBase(r: ReviewResult, detected: seq<T.DocType>, documents: seq<A.DocumentInfo>,
                                          k: nat, s: Slot)
    requires k <= |Slots|
    ensures BaseOf(SlotsFixed(r, detected, documents, k), s) ==
      if SlotIndex(s) < k then Refreshed(BaseOf(r, s), SlotType(s), detected, documents) else BaseOf(r, s)
  {
    if k > 0 {
      SlotsFixedBase(r, detected, documents, k - 1, s);
      var prev := SlotsFixed(r, detected, documents, k - 1);
      var step := Slots[k - 1];
      if step == s {
        assert SlotIndex(s) == k - 1;
      } else {
        assert SlotIndex(s) != k - 1;
      }
    }
  }

  /** Index of the first document of category `t`, or -1. */
  function FirstOfType(documents: seq<A.DocumentInfo>, t: T.DocType): (i: int)
    ensures -1 <= i < |documents|
    ensures i >= 0 ==> documents[i].docType == t
    ensures forall j :: 0 <= j < |documents| && (i == -1 || j < i) ==> documents[j].docType != t
  {
    if documents == [] then -1
    else if documents[0].docType == t then 0
    else
      var k := FirstOfType(documents[1..], t);
      if k == -1 then -1 else k + 1
  }

  /** The application record marked present and valid. */
  function ApplicationOpened(r: ReviewResult): (r': ReviewResult)
    ensures r'.application.base == MarkedValid(r.application.base)
    ensures r'.corporate == r.corporate && forall s :: BaseOf(r', s) == BaseOf(r, s)
  {
    r.(application := r.application.(base := MarkedValid(r.application.base)))
  }

  /** Replacing the application and the corporate documents leaves the seven records alone. */
  lemma RecordsFrame(r: ReviewResult, app: HousingSaleApplication, corporate: CorporateDocuments, s: Slot)
    ensures BaseOf(r.(application := app, corporate := corporate), s) == BaseOf(r, s)
  {
  }

  /** The application marked present, with the data of document `d` filled in. */
  function OpenedWith(r: ReviewResult, d: A.DocumentInfo): (r': ReviewResult)
    ensures r'.application.base.present
    ensures r.corporate.isCorporation ==> r'.corporate.isCorporation
    ensures forall s :: BaseOf(r', s) == BaseOf(r, s)
  {
    var r1 := ApplicationOpened(r);
    if d.mergedData.Obj? then
      var r2 := FixHousing(r1, d.mergedData.fields);
      forall s
        ensures BaseOf(r2, s) == BaseOf(r1, s)
      {
        RecordsFrame(r1, r2.application, r2.corporate, s);
      }
      r2
    else r1
  }

  /**
   * The sale-application part of `_fix`: an absent application is marked present when the
   * text reveals it; otherwise the first sale-application document marks it present and
   * lends its data to `_fix_housing`.
   */
  function ApplicationFixed(r: ReviewResult, detected: seq<T.DocType>, documents: seq<A.DocumentInfo>)
    : (r': ReviewResult)
    ensures forall s :: BaseOf(r', s) == BaseOf(r, s)
    ensures r'.application.base.present <==>
      r.application.base.present || Seen(T.HousingSaleApplication, detected, documents)
    ensures r.corporate.isCorporation ==> r'.corporate.isCorporation
  {
    if r.application.base.present then r
    else if T.HousingSaleApplication in detected then ApplicationOpened(r)
    else
      var i := FirstOfType(documents, T.HousingSaleApplication);
      assert i < 0 ==> T.HousingSaleApplication !in A.Types(documents);
      if i < 0 then r
      else
        assert A.Types(documents)[i] == T.HousingSaleApplication;
        OpenedWith(r, documents[i])
  }

  /** `is_complete` from at least three non-blank owner fields. */
  function Completeness(r: ReviewResult): (r': ReviewResult)
    ensures r'.application.owner.isComplete <==> OwnerScore(r'.application.owner) >= 3
    ensures OwnerScore(r'.application.owner) == OwnerScore(r.application.owner)
    ensures r'.application.base == r.application.base && r'.corporate == r.corporate
    ensures forall s :: BaseOf(r', s) == BaseOf(r, s)
  {
    var o := r.application.owner;
    r.(application := r.application.(owner := o.(isComplete := OwnerScore(o) >= 3)))
  }

  /** The corporation flag raised when the text says so. */
  function CorporationRaised(r: ReviewResult, corp: bool): (r': ReviewResult)
    ensures r'.corporate.isCorporation <==> r.corporate.isCorporation || corp
    ensures r'.application == r.application && forall s :: BaseOf(r', s) == BaseOf(r, s)
  {
    if corp && !r.corporate.isCorporation then r.(corporate := r.corporate.(isCorporation := true)) else r
  }

  /** The record `_fix(result, text_det, documents, corp)` leaves. */
  function Fixed(r: ReviewResult, detected: seq<T.DocType>, documents: seq<A.DocumentInfo>, corp: bool): ReviewResult
  {
    var r1 := ApplicationFixed(r, detected, documents);
    var r2 := SlotsFixed(r1, detected, documents, |Slots|);
    Completeness(CorporationRaised(r2, corp))
  }

  /** The sale-application part of `_fix`, with its search for the first application document. */
  method FixApplication(r: ReviewResult, detected: seq<T.DocType>, documents: seq<A.DocumentInfo>)
    returns (result: ReviewResult)
    ensures result == ApplicationFixed(r, detected, documents)
  {
    result := r;
    if !result.application.base.present {
      if T.HousingSaleApplication in detected {
        result := ApplicationOpened(result);
      }
      var i := 0;
      while i < |documents| && !(documents[i].docType == T.HousingSaleApplication && !result.application.base.present)
        invariant 0 <= i <= |documents|
        invariant forall j :: 0 <= j < i ==> documents[j].docType != T.HousingSaleApplication || result.application.base.present
      {
        i := i + 1;
      }
      if i < |documents| {
        assert result == r;
        assert i == FirstOfType(documents, T.HousingSaleApplication);
        result := OpenedWith(result, documents[i]);
      }
    }
  }

  /** The loop of `_fix` over the seven records. */
  method FixRecords(r: ReviewResult, detected: seq<T.DocType>, documents: seq<A.DocumentInfo>)
    returns (result: ReviewResult)
    ensures result == SlotsFixed(r, detected, documents, |Slots|)
  {
    result := r;
    for k := 0 to |Slots|
      invariant result == SlotsFixed(r, detected, documents, k)
    {
      var s := Slots[k];
      if !BaseOf(result, s).present && (SlotType(s) in detected || SlotType(s) in A.Types(documents)) {
        result := WithBase(result, s, MarkedValid(BaseOf(result, s)));
      }
    }
  }

  /** `_fix(result, text_det, documents, corp)` */
  method Fix(r: ReviewResult, detected: seq<T.DocType>, documents: seq<A.DocumentInfo>, corp: bool)
    returns (result: ReviewResult)
    ensures result == Fixed(r, detected, documents, corp)
  {
    result := FixApplication(r, detected, documents);
    result := FixRecords(result, detected, documents);
    ghost var fixed := result;
    if corp && !result.corporate.isCorporation {
      result := result.(corporate := result.corporate.(isCorporation := true));
    }
    assert result == CorporationRaised(fixed, corp);
    var o := result.application.owner;
    result := result.(application := result.application.(owner := o.(isComplete := OwnerScore(o) >= 3)));
  }

  /**
   * Each of the seven records ends refreshed: marked present and valid when it was absent
   * and its category was seen in the text or among the documents, untouched otherwise.
   */
  lemma FixedRecords(r: ReviewResult, detected: seq<T.DocType>, documents: seq<A.DocumentInfo>, corp: bool, s: Slot)
    ensures BaseOf(Fixed(r, detected, documents, corp), s) == Refreshed(BaseOf(r, s), SlotType(s), detected, documents)
  {
    var r1 := ApplicationFixed(r, detected, documents);
    SlotsFixedBase(r1, detected, documents, |Slots|, s);
  }

  /** `_fix` never clears a record's presence, and marks present every record whose category was seen. */
  lemma FixNeverClears(r: ReviewResult, detected: seq<T.DocType>, documents: seq<A.DocumentInfo>, corp: bool, s: Slot)
    ensures BaseOf(r, s).present ==> BaseOf(Fixed(r, detected, documents, corp), s) == BaseOf(r, s)
    ensures Seen(SlotType(s), detected, documents) ==> BaseOf(Fixed(r, detected, documents, corp), s).present
  {
    FixedRecords(r, detected, documents, corp, s);
  }

  /** The sale application is present afterwards exactly when it was, or its category was seen. */
  lemma FixedApplication(r: ReviewResult, detected: seq<T.DocType>, documents: seq<A.DocumentInfo>, corp: bool)
    ensures Fixed(r, detected, documents, corp).application.base.present <==>
      r.application.base.present || Seen(T.HousingSaleApplication, detected, documents)
  {
  }

  /** The corporation flag is only ever raised, and raised whenever the text says so. */
  lemma FixedCorporation(r: ReviewResult, detected: seq<T.DocType>, documents: seq<A.DocumentInfo>, corp: bool)
    ensures r.corporate.isCorporation || corp ==> Fixed(r, detected, documents, corp).corporate.isCorporation
  {
  }

  /** The owner is complete exactly when at least three owner fields are non-blank. */
  lemma FixedCompleteness(r: ReviewResult, detected: seq<T.DocType>, documents: seq<A.DocumentInfo>, corp: bool)
    ensures var o := Fixed(r, detected, documents, corp).application.owner; o.isComplete <==> OwnerScore(o) >= 3
  {
  }
}
