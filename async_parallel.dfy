/**
 * The parallel analyser of core/async_parallel_analyzer.py: its text detector, the grouping of
 * pages by category with the "기타" and "미확인" groups left out of the analysis, the result
 * of one analysis task, and the merge of the first- and second-pass results.
 */
module AsyncParallelAnalyzer {
  import opened Wrappers
  import opened Text
  import opened Values

  /** A page as the detector and the grouping see it; the image is not modelled. */
  datatype PageData = PageData(pageNum: int, text: string)

  /** `DocumentResult`: one analysed category. */
  datatype DocumentResult = DocumentResult(docType: string, pages: seq<int>, data: Value, confidence: real)

  /** The label of a page no keyword identifies. */
  const UnknownLabel: string := "미확인"

  /** The label of a page the page-type map does not name. */
  const OtherLabel: string := "기타"

  /** Below this many significant characters a page is not classified by its text. */
  const MinTextLength: nat := 30

  // ================================================================== text detection

  /** The keyword list of `_detect_by_text`, in list order; written in three parts. */
  const TextKeywords: seq<(string, string)> := TextKeywords1 + TextKeywords2 + TextKeywords3

  const TextKeywords1: seq<(string, string)> := [
    ("주택매도신청서", "주택매도신청서"),
    ("매도신청주택임대현황", "매도신청주택임대현황"),
    ("임대현황", "매도신청주택임대현황"),
    ("위임장", "위임장"),
    ("개인정보동의서", "개인정보동의서"),
    ("개인정보수집", "개인정보동의서"),
    ("청렴서약서", "청렴서약서"),
    ("공사직원확인서", "공사직원확인서"),
    ("인감증명서", "인감증명서")
  ]

  const TextKeywords2: seq<(string, string)> := [
    ("인감증명", "인감증명서"),
    ("건축물대장총괄표제부", "건축물대장총괄표제부"),
    ("총괄표제부", "건축물대장총괄표제부"),
    ("건축물대장전유부", "건축물대장전유부"),
    ("전유부", "건축물대장전유부"),
    ("건축물대장표제부", "건축물대장표제부"),
    ("건축물대장", "건축물대장표제부"),
    ("건축물현황도", "건축물현황도"),
    ("토지이용계획확인원", "토지이용계획확인원")
  ]

  const TextKeywords3: seq<(string, string)> := [
    ("토지이용계획", "토지이용계획확인원"),
    ("토지대장", "토지대장"),
    ("토지등기부등본", "토지등기부등본"),
    ("건물등기부등본", "건물등기부등본"),
    ("등기사항전부", "건물등기부등본"),
    ("준공도면", "준공도면"),
    ("시험성적서", "시험성적서"),
    ("납품확인서", "납품확인서")
  ]

  /** `text.replace(" ", "").replace("\n", "")` */
  function Normalized(text: string): string
  {
    Without(text, {' ', '\n'})
  }

  function KeywordsOf(table: seq<(string, string)>): (r: seq<string>)
    ensures |r| == |table|
    ensures forall i :: 0 <= i < |table| ==> r[i] == table[i].0
  {
    if table == [] then [] else KeywordsOf(table[..|table| - 1]) + [table[|table| - 1].0]
  }

  /**
   * `_detect_by_text`: "미확인" for a page with fewer than 30 significant characters;
   * otherwise the category of the first keyword found, else "미확인".
   */
  function DetectByTextWith(table: seq<(string, string)>, text: string): (r: string)
    ensures |Normalized(text)| < MinTextLength ==> r == UnknownLabel
    ensures r == UnknownLabel || exists i :: 0 <= i < |table| && r == table[i].1
  {
    if text == [] then UnknownLabel
    else
      var n := Normalized(text);
      if |n| < MinTextLength then UnknownLabel
      else
        var i := FirstHit(n, KeywordsOf(table));
        if i >= 0 then table[i].1 else UnknownLabel
  }

  /** `_detect_by_text(text)` */
  function DetectByText(text: string): string
  {
    DetectByTextWith(TextKeywords, text)
  }

  /** Keyword `i` is the first one of the list found in `n`. */
  predicate FirstKeywordAt(n: string, table: seq<(string, string)>, i: int)
  {
    0 <= i < |table| && Contains(n, table[i].0)
    && forall j :: 0 <= j < i ==> !Contains(n, table[j].0)
  }

  /** On a page with enough text, the first keyword found decides the category. */
  lemma DetectByTextFirst(table: seq<(string, string)>, text: string, i: int)
    requires |Normalized(text)| >= MinTextLength
    requires FirstKeywordAt(Normalized(text), table, i)
    ensures DetectByTextWith(table, text) == table[i].1
  {
    assert KeywordsOf(table)[i] == table[i].0;
  }

  /**
   * With a list that never answers "미확인", a page is "미확인" exactly when it has fewer than
   * 30 significant characters or contains none of the keywords.
   */
  lemma DetectByTextUnknownIff(table: seq<(string, string)>, text: string)
    requires forall i :: 0 <= i < |table| ==> table[i].1 != UnknownLabel
    ensures var n := Normalized(text);
      DetectByTextWith(table, text) == UnknownLabel <==> |n| < MinTextLength || !ContainsAny(n, KeywordsOf(table))
  {
    var n := Normalized(text);
    if text == [] {
      assert n == [];
    } else if |n| >= MinTextLength {
      var i := FirstHit(n, KeywordsOf(table));
      if i >= 0 {
        assert table[i].1 != UnknownLabel;
      }
    }
  }

  /** Every answer of the list is a category that gets analysed. */
  predicate AllAnalysed(table: seq<(string, string)>)
  {
    forall i :: 0 <= i < |table| ==> Analysed(table[i].1)
  }

  lemma AllAnalysedConcat(a: seq<(string, string)>, b: seq<(string, string)>)
    requires AllAnalysed(a) && AllAnalysed(b)
    ensures AllAnalysed(a + b)
  {
    assert forall i :: |a| <= i < |a + b| ==> (a + b)[i] == b[i - |a|];
  }

  /** The real keyword list never answers "미확인" or "기타", so its answers are all analysed. */
  lemma TextKeywordsAnalysed()
    ensures forall i :: 0 <= i < |TextKeywords| ==> Analysed(TextKeywords[i].1)
  {
    assert AllAnalysed(TextKeywords1);
    assert AllAnalysed(TextKeywords2);
    assert AllAnalysed(TextKeywords3);
    AllAnalysedConcat(TextKeywords2, TextKeywords3);
    AllAnalysedConcat(TextKeywords1, TextKeywords2 + TextKeywords3);
    assert TextKeywords == TextKeywords1 + (TextKeywords2 + TextKeywords3);
  }

  // ================================================================== grouping by category

  /** `page_types.get(page.page_num, "기타")` */
  function TypeOf(p: PageData, pageTypes: map<int, string>): string
  {
    if p.pageNum in pageTypes then pageTypes[p.pageNum] else OtherLabel
  }

  /** The category of each page, in page order. */
  function Types(pages: seq<PageData>, pageTypes: map<int, string>): (r: seq<string>)
    ensures |r| == |pages|
    ensures forall i :: 0 <= i < |pages| ==> r[i] == TypeOf(pages[i], pageTypes)
  {
    if pages == [] then [] else Types(pages[..|pages| - 1], pageTypes) + [TypeOf(pages[|pages| - 1], pageTypes)]
  }

  /** The categories in order of first appearance: the key order of `type_pages`. */
  function TypesInOrder(pages: seq<PageData>, pageTypes: map<int, string>): seq<string>
  {
    Dedup(Types(pages, pageTypes))
  }

  /** `type_pages[t]`: the pages of category `t`, in page order. */
  function Group(pages: seq<PageData>, pageTypes: map<int, string>, t: string): (g: seq<PageData>)
    ensures |g| <= |pages|
    ensures forall i :: 0 <= i < |g| ==> TypeOf(g[i], pageTypes) == t && g[i] in pages
  {
    if pages == [] then []
    else
      var p := pages[|pages| - 1];
      Group(pages[..|pages| - 1], pageTypes, t) + (if TypeOf(p, pageTypes) == t then [p] else [])
  }

  lemma {:induction false} GroupEmpty(pages: seq<PageData>, pageTypes: map<int, string>, t: string)
    requires t !in Types(pages, pageTypes)
    ensures Group(pages, pageTypes, t) == []
  {
    if pages != [] {
      var init := pages[..|pages| - 1];
      assert Types(pages, pageTypes) == Types(init, pageTypes) + [TypeOf(pages[|pages| - 1], pageTypes)];
      GroupEmpty(init, pageTypes, t);
    }
  }

  /** The pages of category `t` are exactly the pages whose category is `t`, in page order. */
  lemma {:induction false} GroupMembers(pages: seq<PageData>, pageTypes: map<int, string>, t: string)
    ensures forall p :: p in Group(pages, pageTypes, t) <==> p in pages && TypeOf(p, pageTypes) == t
  {
    if pages != [] {
      var init := pages[..|pages| - 1];
      GroupMembers(init, pageTypes, t);
      assert pages == init + [pages[|pages| - 1]];
    }
  }

  /** Appending a page adds it to the group of its category and to no other. */
  lemma GroupStep(pre: seq<PageData>, pageTypes: map<int, string>, p: PageData)
    ensures Types(pre + [p], pageTypes) == Types(pre, pageTypes) + [TypeOf(p, pageTypes)]
    ensures Group(pre + [p], pageTypes, TypeOf(p, pageTypes)) == Group(pre, pageTypes, TypeOf(p, pageTypes)) + [p]
    ensures forall u :: u != TypeOf(p, pageTypes) ==> Group(pre + [p], pageTypes, u) == Group(pre, pageTypes, u)
  {
    assert (pre + [p])[..|pre|] == pre;
  }

  /** `byType` and `order` hold the grouping of `pages`: its categories in order, each with its pages. */
  ghost predicate Grouped(pages: seq<PageData>, pageTypes: map<int, string>, byType: map<string, seq<PageData>>, order: seq<string>)
  {
    order == TypesInOrder(pages, pageTypes)
    && (forall t :: t in byType <==> t in order)
    && (forall t :: t in byType ==> byType[t] == Group(pages, pageTypes, t) && byType[t] != [])
  }

  /** A page of a category met before joins that category's group. */
  lemma GroupedExtend(pre: seq<PageData>, pageTypes: map<int, string>, p: PageData,
                      byType: map<string, seq<PageData>>, order: seq<string>)
    requires Grouped(pre, pageTypes, byType, order) && TypeOf(p, pageTypes) in byType
    ensures Grouped(pre + [p], pageTypes, byType[TypeOf(p, pageTypes) := byType[TypeOf(p, pageTypes)] + [p]], order)
  {
    var t := TypeOf(p, pageTypes);
    GroupStep(pre, pageTypes, p);
    DedupSpec(Types(pre, pageTypes));
    assert t in Types(pre, pageTypes);
    TypesInOrderStep(pre, pageTypes, p);
    var next := byType[t := byType[t] + [p]];
    forall u | u in next
      ensures next[u] == Group(pre + [p], pageTypes, u) && next[u] != []
    {
      if u == t {
        assert next[u] == Group(pre, pageTypes, t) + [p];
      } else {
        assert next[u] == byType[u];
      }
    }
    assert Grouped(pre + [p], pageTypes, next, order);
  }

  /** Appending a page adds its category to the key order exactly when the category is new. */
  lemma TypesInOrderStep(pre: seq<PageData>, pageTypes: map<int, string>, p: PageData)
    ensures TypesInOrder(pre + [p], pageTypes) ==
      if TypeOf(p, pageTypes) in Types(pre, pageTypes) then TypesInOrder(pre, pageTypes)
      else TypesInOrder(pre, pageTypes) + [TypeOf(p, pageTypes)]
  {
    GroupStep(pre, pageTypes, p);
    DedupSnoc(Types(pre, pageTypes), TypeOf(p, pageTypes));
  }

  /** A page of a new category opens a group of its own, last in the key order. */
  lemma GroupedStart(pre: seq<PageData>, pageTypes: map<int, string>, p: PageData,
                     byType: map<string, seq<PageData>>, order: seq<string>)
    requires Grouped(pre, pageTypes, byType, order) && TypeOf(p, pageTypes) !in byType
    ensures Grouped(pre + [p], pageTypes, byType[TypeOf(p, pageTypes) := [p]], order + [TypeOf(p, pageTypes)])
  {
    var t := TypeOf(p, pageTypes);
    GroupStep(pre, pageTypes, p);
    DedupSpec(Types(pre, pageTypes));
    assert t !in Types(pre, pageTypes);
    GroupEmpty(pre, pageTypes, t);
    TypesInOrderStep(pre, pageTypes, p);
    var next := byType[t := [p]];
    forall u | u in next
      ensures next[u] == Group(pre + [p], pageTypes, u) && next[u] != []
    {
    }
    assert Grouped(pre + [p], pageTypes, next, order + [t]);
  }

  /** The grouping loop of `_analyze_dual_parallel`: `type_pages`, with its key order. */
  method GroupPages(pages: seq<PageData>, pageTypes: map<int, string>)
    returns (byType: map<string, seq<PageData>>, order: seq<string>)
    ensures Grouped(pages, pageTypes, byType, order)
  {
    byType := map[];
    order := [];
    for i := 0 to |pages|
      invariant Grouped(pages[..i], pageTypes, byType, order)
    {
      var p := pages[i];
      var t := TypeOf(p, pageTypes);
      assert pages[..i + 1] == pages[..i] + [p];
      if t in byType {
        GroupedExtend(pages[..i], pageTypes, p, byType, order);
        byType := byType[t := byType[t] + [p]];
      } else {
        GroupedStart(pages[..i], pageTypes, p, byType, order);
        byType := byType[t := [p]];
        order := order + [t];
      }
    }
    assert pages[..|pages|] == pages;
  }

  /** The categories that are sent for analysis: all but "기타" and "미확인". */
  predicate Analysed(t: string)
  {
    t != OtherLabel && t != UnknownLabel
  }

  /** The categories of `order` that are analysed, in order. */
  function AnalysedTypes(order: seq<string>): (r: seq<string>)
    ensures forall t :: t in r <==> t in order && Analysed(t)
  {
    if order == [] then []
    else
      var t := order[|order| - 1];
      AnalysedTypes(order[..|order| - 1]) + (if Analysed(t) then [t] else [])
  }

  /** The tasks for the analysed categories of `order`, each with its group from `byType`. */
  function TasksOf(order: seq<string>, byType: map<string, seq<PageData>>): (r: seq<(string, seq<PageData>)>)
    requires forall t :: t in order ==> t in byType
  {
    if order == [] then []
    else
      var t := order[|order| - 1];
      TasksOf(order[..|order| - 1], byType) + (if Analysed(t) then [(t, byType[t])] else [])
  }

  /** One task per analysed category, in order, carrying that category's group. */
  lemma {:induction false} TasksOfSpec(order: seq<string>, byType: map<string, seq<PageData>>)
    requires forall t :: t in order ==> t in byType
    ensures |TasksOf(order, byType)| == |AnalysedTypes(order)|
    ensures forall i :: 0 <= i < |TasksOf(order, byType)| ==>
      AnalysedTypes(order)[i] in byType && TasksOf(order, byType)[i] == (AnalysedTypes(order)[i], byType[AnalysedTypes(order)[i]])
  {
    if order != [] {
      TasksOfSpec(order[..|order| - 1], byType);
    }
  }

  /**
   * The task list of `_analyze_dual_parallel`: one task per category met on the pages, in
   * order of first appearance, except "기타" and "미확인", each with all its pages.
   */
  method AnalysisTasks(pages: seq<PageData>, pageTypes: map<int, string>) returns (tasks: seq<(string, seq<PageData>)>)
    ensures var types := AnalysedTypes(TypesInOrder(pages, pageTypes));
      |tasks| == |types|
      && forall i :: 0 <= i < |tasks| ==> tasks[i] == (types[i], Group(pages, pageTypes, types[i]))
  {
    var byType, order := GroupPages(pages, pageTypes);
    tasks := [];
    for j := 0 to |order|
      invariant tasks == TasksOf(order[..j], byType)
    {
      assert order[..j + 1][..j] == order[..j];
      var t := order[j];
      if Analysed(t) {
        tasks := tasks + [(t, byType[t])];
      }
    }
    assert order[..|order|] == order;
    TasksOfSpec(order, byType);
  }

  /**
   * Every page of a category other than "기타" and "미확인" lands in the task of its category,
   * and no task is about "기타" or "미확인".
   */
  lemma TasksCoverAnalysedPages(pages: seq<PageData>, pageTypes: map<int, string>, p: PageData)
    requires p in pages
    ensures var types := AnalysedTypes(TypesInOrder(pages, pageTypes));
      (forall t :: t in types ==> Analysed(t))
      && (Analysed(TypeOf(p, pageTypes)) ==>
            TypeOf(p, pageTypes) in types && p in Group(pages, pageTypes, TypeOf(p, pageTypes)))
  {
    var t := TypeOf(p, pageTypes);
    DedupSpec(Types(pages, pageTypes));
    GroupMembers(pages, pageTypes, t);
    var k :| 0 <= k < |pages| && pages[k] == p;
    assert Types(pages, pageTypes)[k] == t;
  }

  // ================================================================== one analysis task

  /** The confidence of an answered task. */
  const AnsweredConfidence: real := 0.85

  /** The confidence of a task whose model call raised. */
  const FailedConfidence: real := 0.5

  /**
   * The data of an answered task: the parsed answer when it is a dict, its first element
   * when it is a list starting with a dict, and an empty dict otherwise.
   */
  function TaskData(answer: Value): (d: Dict)
    ensures answer.Obj? ==> d == answer.fields
    ensures !answer.Obj? && !(answer.Arr? && answer.items != [] && answer.items[0].Obj?) ==> d == map[]
  {
    match answer
    case Obj(fields) => fields
    case Arr(items) => if items != [] && items[0].Obj? then items[0].fields else map[]
    case _ => map[]
  }

  function PageNums(pages: seq<PageData>): (r: seq<int>)
    ensures |r| == |pages|
    ensures forall i :: 0 <= i < |pages| ==> r[i] == pages[i].pageNum
  {
    if pages == [] then [] else PageNums(pages[..|pages| - 1]) + [pages[|pages| - 1].pageNum]
  }

  /**
   * `analyze_task` for one category: `answer` is the parsed model answer (an empty response
   * parses as `{}`), or None when the call or the parse raised.
   */
  function TaskResult(docType: string, group: seq<PageData>, answer: Option<Value>): (r: DocumentResult)
    ensures r.docType == docType && r.data.Obj?
    ensures answer.Some? ==> r.pages == PageNums(group) && r.confidence == AnsweredConfidence
    ensures answer.None? ==> r.pages == [] && r.data == Obj(map[]) && r.confidence == FailedConfidence
  {
    match answer
    case Some(v) => DocumentResult(docType, PageNums(group), Obj(TaskData(v)), AnsweredConfidence)
    case None => DocumentResult(docType, [], Obj(map[]), FailedConfidence)
  }

  // ================================================================== the dual-pass merge

  /** The flag a first-pass result gets when the second pass has the same category. */
  const DualCheckedKey: string := "_dual_checked"

  /** The categories of the second pass: the keys of `second_map`. */
  function SecondTypes(second: seq<DocumentResult>): set<string>
  {
    set j | 0 <= j < |second| :: second[j].docType
  }

  /** `r1.data["_dual_checked"] = True` when `r1.data` is a dict; otherwise `r1` as it is. */
  function Flagged(r: DocumentResult): DocumentResult
  {
    if r.data.Obj? then r.(data := Obj(r.data.fields[DualCheckedKey := Bool(true)])) else r
  }

  /** The result list of `_merge_dual_results`, one entry per first-pass result. */
  function DualMerged(first: seq<DocumentResult>, second: seq<DocumentResult>): (r: seq<DocumentResult>)
    ensures |r| == |first|
  {
    if first == [] then []
    else
      var r1 := first[|first| - 1];
      DualMerged(first[..|first| - 1], second) + [if r1.docType in SecondTypes(second) then Flagged(r1) else r1]
  }

  /** `_merge_dual_results`: the first-pass results in order, each flagged when the second pass has its category. */
  method MergeDualResults(first: seq<DocumentResult>, second: seq<DocumentResult>) returns (merged: seq<DocumentResult>)
    ensures merged == DualMerged(first, second)
  {
    var secondTypes := SecondTypes(second);
    merged := [];
    for i := 0 to |first|
      invariant merged == DualMerged(first[..i], second)
    {
      assert first[..i + 1][..i] == first[..i];
      var r1 := first[i];
      if r1.docType in secondTypes {
        r1 := Flagged(r1);
      }
      merged := merged + [r1];
    }
    assert first[..|first|] == first;
  }

  /**
   * The merge keeps exactly the first-pass results in order: category, pages and confidence
   * untouched, so a category only the second pass found is dropped, and a result whose
   * category the second pass lacks, or whose data is not a dict, is kept as it is.
   */
  lemma {:induction false} DualMergedKeepsFirst(first: seq<DocumentResult>, second: seq<DocumentResult>)
    ensures forall i :: 0 <= i < |first| ==>
      var r := DualMerged(first, second)[i];
      r.docType == first[i].docType && r.pages == first[i].pages && r.confidence == first[i].confidence
      && r.data.Obj? == first[i].data.Obj?
    ensures forall i :: 0 <= i < |first| && (first[i].docType !in SecondTypes(second) || !first[i].data.Obj?) ==>
      DualMerged(first, second)[i] == first[i]
  {
    if first != [] {
      var init := first[..|first| - 1];
      DualMergedKeepsFirst(init, second);
      var r := DualMerged(first, second);
      assert r == DualMerged(init, second) + [r[|first| - 1]];
      forall i | 0 <= i < |first| - 1
        ensures r[i] == DualMerged(init, second)[i] && first[i] == init[i]
      {
      }
    }
  }

  /**
   * A dict result whose category the second pass also has gets `_dual_checked` set to true,
   * and keeps every other key with its value.
   */
  lemma {:induction false} DualMergedFlags(first: seq<DocumentResult>, second: seq<DocumentResult>, i: int)
    requires 0 <= i < |first| && first[i].docType in SecondTypes(second) && first[i].data.Obj?
    ensures var d := DualMerged(first, second)[i].data;
      d.Obj? && DualCheckedKey in d.fields && d.fields[DualCheckedKey] == Bool(true)
      && d.fields.Keys == first[i].data.fields.Keys + {DualCheckedKey}
      && forall k :: k in first[i].data.fields && k != DualCheckedKey ==> d.fields[k] == first[i].data.fields[k]
  {
    var init := first[..|first| - 1];
    if i < |first| - 1 {
      DualMergedFlags(init, second, i);
      assert DualMerged(first, second)[i] == DualMerged(init, second)[i];
    }
  }
}
