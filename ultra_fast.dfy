/**
 * The fast PDF processor of core/ultra_fast_pdf_processor.py: its first-match keyword
 * detector, the rendering resolution it picks per category, the assembly of the pages the
 * parallel workers return, and the in-memory least-recently-used layer of its cache.
 */
module UltraFastPdfProcessor {
  import opened Wrappers
  import opened Text
  import opened Values
  import Sorting

  /** `UltraDocType`: this processor's own list of categories. */
  datatype UltraDocType =
    | HousingSaleApplication
    | RentalStatus
    | PowerOfAttorney
    | ConsentForm
    | IntegrityPledge
    | LhEmployeeConfirm
    | SealCertificate
    | BuildingLedgerTitle
    | BuildingLedgerSummary
    | BuildingLedgerExclusive
    | BuildingLayout
    | LandLedger
    | LandUsePlan
    | BuildingRegistry
    | LandRegistry
    | AsBuiltDrawing
    | TestCertificate
    | DeliveryConfirmation
    | Unknown

  // ================================================================== resolution by category

  const DpiLow: nat := 100
  const DpiMedium: nat := 150
  const DpiHigh: nat := 200

  /** The forms filled in by hand, which are rendered sharpest and given contrast enhancement. */
  predicate IsHandwrittenForm(t: UltraDocType)
  {
    t.HousingSaleApplication? || t.PowerOfAttorney? || t.ConsentForm? || t.IntegrityPledge? || t.LhEmployeeConfirm?
  }

  /** The documents issued by a government register, which are rendered fastest. */
  predicate IsRegisterIssued(t: UltraDocType)
  {
    t.BuildingLedgerTitle? || t.BuildingLedgerSummary? || t.BuildingLedgerExclusive? || t.BuildingLayout?
    || t.LandLedger? || t.LandUsePlan? || t.BuildingRegistry? || t.LandRegistry?
  }

  /**
   * `DOC_TYPE_DPI.get(doc_type, DPI_MEDIUM)`: every category has an entry, high for the
   * hand-filled forms, low for the register documents and medium for the rest.
   */
  function Dpi(t: UltraDocType): (d: nat)
    ensures d == DpiHigh <==> IsHandwrittenForm(t)
    ensures d == DpiLow <==> IsRegisterIssued(t)
    ensures d == DpiHigh || d == DpiMedium || d == DpiLow
  {
    match t
    case HousingSaleApplication => DpiHigh
    case PowerOfAttorney => DpiHigh
    case ConsentForm => DpiHigh
    case IntegrityPledge => DpiHigh
    case LhEmployeeConfirm => DpiHigh
    case BuildingLedgerTitle => DpiLow
    case BuildingLedgerSummary => DpiLow
    case BuildingLedgerExclusive => DpiLow
    case BuildingLayout => DpiLow
    case LandLedger => DpiLow
    case LandUsePlan => DpiLow
    case BuildingRegistry => DpiLow
    case LandRegistry => DpiLow
    case SealCertificate => DpiMedium
    case AsBuiltDrawing => DpiMedium
    case TestCertificate => DpiMedium
    case DeliveryConfirmation => DpiMedium
    case RentalStatus => DpiMedium
    case Unknown => DpiMedium
  }

  // ================================================================== detection

  /** `DETECTION_KEYWORDS`, in list order; written in two parts. */
  const DetectionKeywords: seq<(string, UltraDocType)> := DetectionKeywords1 + DetectionKeywords2

  const DetectionKeywords1: seq<(string, UltraDocType)> := [
    ("매도신청주택임대현황", RentalStatus),
    ("주택매도신청서", HousingSaleApplication),
    ("매도신청서", HousingSaleApplication),
    ("위임장", PowerOfAttorney),
    ("개인정보동의서", ConsentForm),
    ("청렴서약서", IntegrityPledge),
    ("공사직원확인서", LhEmployeeConfirm),
    ("인감증명서", SealCertificate)
  ]

  const DetectionKeywords2: seq<(string, UltraDocType)> := [
    ("건축물대장총괄", BuildingLedgerSummary),
    ("건축물대장전유부", BuildingLedgerExclusive),
    ("건축물대장", BuildingLedgerTitle),
    ("토지대장", LandLedger),
    ("토지이용계획", LandUsePlan),
    ("토지등기부등본", LandRegistry),
    ("건물등기부등본", BuildingRegistry),
    ("등기사항전부증명서", BuildingRegistry)
  ]

  /** Above this many significant characters an unrecognised page scores 0.3 instead of 0.0. */
  const LongTextLength: nat := 30

  /** `text.replace(" ", "").replace("\n", "")` */
  function Normalized(text: string): string
  {
    Without(text, {' ', '\n'})
  }

  function KeywordsOf(table: seq<(string, UltraDocType)>): (r: seq<string>)
    ensures |r| == |table|
    ensures forall i :: 0 <= i < |table| ==> r[i] == table[i].0
  {
    if table == [] then [] else KeywordsOf(table[..|table| - 1]) + [table[|table| - 1].0]
  }

  /**
   * `min(0.95, 0.7 + len(keyword) * 0.02)`: longer keywords are trusted more, up to 0.95,
   * which every keyword of 13 characters or more reaches.
   */
  function KeywordConfidence(keyword: string): (c: real)
    ensures 0.7 <= c <= 0.95
    ensures c == 0.95 <==> |keyword| >= 13
    ensures |keyword| > 0 ==> c > 0.7
  {
    var raw := 0.7 + (|keyword| as real) * 0.02;
    if 0.95 <= raw then 0.95 else raw
  }

  /** The score of an unrecognised page: 0.3 when it has more than 30 significant characters. */
  function UnknownScore(n: string): real
  {
    if |n| > LongTextLength then 0.3 else 0.0
  }

  /**
   * `detect_doc_type` over a keyword list: the category of the first keyword found in the
   * normalised text, with its length-based confidence; else UNKNOWN with 0.3 or 0.0.
   */
  function DetectWith(table: seq<(string, UltraDocType)>, text: string): (r: (UltraDocType, real))
    ensures 0.0 <= r.1 <= 0.95
    ensures r.1 == 0.0 ==> r.0 == Unknown && |Normalized(text)| <= LongTextLength
  {
    var n := Normalized(text);
    var i := FirstHit(n, KeywordsOf(table));
    if i >= 0 then (table[i].1, KeywordConfidence(table[i].0)) else (Unknown, UnknownScore(n))
  }

  /** `detect_doc_type(text)` */
  function Detect(text: string): (UltraDocType, real)
  {
    DetectWith(DetectionKeywords, text)
  }

  /** Keyword `i` is the first one of the list found in `n`. */
  predicate FirstKeywordAt(n: string, table: seq<(string, UltraDocType)>, i: int)
  {
    0 <= i < |table| && Contains(n, table[i].0)
    && forall j :: 0 <= j < i ==> !Contains(n, table[j].0)
  }

  /** The first keyword found decides the category, and its length the confidence. */
  lemma DetectFirstKeyword(table: seq<(string, UltraDocType)>, text: string, i: int)
    requires FirstKeywordAt(Normalized(text), table, i)
    ensures DetectWith(table, text) == (table[i].1, KeywordConfidence(table[i].0))
  {
    assert KeywordsOf(table)[i] == table[i].0;
  }

  /**
   * With a keyword list that names no UNKNOWN entry, a page is UNKNOWN exactly when no
   * keyword occurs, and then scores 0.3 exactly when it has more than 30 significant characters.
   */
  lemma DetectUnknownIff(table: seq<(string, UltraDocType)>, text: string)
    requires forall i :: 0 <= i < |table| ==> table[i].1 != Unknown
    ensures var r := DetectWith(table, text); var n := Normalized(text);
      (r.0 == Unknown <==> !ContainsAny(n, KeywordsOf(table)))
      && (r.0 == Unknown ==> (r.1 == 0.3 <==> |n| > LongTextLength))
  {
    var n := Normalized(text);
    var i := FirstHit(n, KeywordsOf(table));
    if i >= 0 {
      assert table[i].1 != Unknown;
    }
  }

  /** The keyword list names no UNKNOWN entry and no empty keyword. */
  lemma DetectionKeywordsProper()
    ensures forall i :: 0 <= i < |DetectionKeywords| ==> DetectionKeywords[i].1 != Unknown && DetectionKeywords[i].0 != ""
  {
    assert forall i :: 0 <= i < |DetectionKeywords1| ==> DetectionKeywords[i] == DetectionKeywords1[i];
    assert forall i :: 0 <= i < |DetectionKeywords2| ==> DetectionKeywords[|DetectionKeywords1| + i] == DetectionKeywords2[i];
  }

  /** A recognised page scores above 0.7 and at most 0.95; an unrecognised one 0.3 or 0.0. */
  lemma DetectScoreRange(text: string)
    ensures Detect(text).0 != Unknown ==> 0.7 < Detect(text).1 <= 0.95
    ensures Detect(text).0 == Unknown ==> Detect(text).1 == 0.3 || Detect(text).1 == 0.0
  {
    DetectionKeywordsProper();
    DetectUnknownIff(DetectionKeywords, text);
    var n := Normalized(text);
    var i := FirstHit(n, KeywordsOf(DetectionKeywords));
    if i >= 0 {
      assert DetectionKeywords[i].0 != "";
    }
  }

  // ================================================================== page assembly

  /** At most this many pages of a file are processed. */
  const MaxPages: nat := 50

  /** The pages one worker handles together. */
  const ChunkSize: nat := 3

  /** One entry of `page_info`: the 0-based page index, its detected category and score, its text. */
  datatype PageInfo = PageInfo(index: nat, docType: UltraDocType, confidence: real, text: string)

  /**
   * One page as a worker returns it: the 1-based page number, the category, the confidence
   * (0.0 until the assembly fills it in), the text and the resolution used.
   */
  datatype UltraPage = UltraPage(pageNum: int, docType: UltraDocType, confidence: real, text: string, dpiUsed: nat)

  /** The first pass of `extract`: each of the first 50 pages with its detected category. */
  method DetectPages(texts: seq<string>) returns (info: seq<PageInfo>)
    ensures |info| == if |texts| < MaxPages then |texts| else MaxPages
    ensures forall i :: 0 <= i < |info| ==>
      info[i] == PageInfo(i, Detect(texts[i]).0, Detect(texts[i]).1, texts[i])
  {
    var total := if |texts| < MaxPages then |texts| else MaxPages;
    info := [];
    for i := 0 to total
      invariant |info| == i
      invariant forall j :: 0 <= j < i ==> info[j] == PageInfo(j, Detect(texts[j]).0, Detect(texts[j]).1, texts[j])
    {
      var r := Detect(texts[i]);
      info := info + [PageInfo(i, r.0, r.1, texts[i])];
    }
  }

  /** The page infos cut into consecutive chunks of three, the last one possibly shorter. */
  function Chunks(info: seq<PageInfo>): (r: seq<seq<PageInfo>>)
    decreases |info|
  {
    if info == [] then []
    else if |info| <= ChunkSize then [info]
    else [info[..ChunkSize]] + Chunks(info[ChunkSize..])
  }

  /** All pages of a sequence of chunks, in chunk order. */
  function Flatten<T>(chunks: seq<seq<T>>): seq<T>
  {
    if chunks == [] then [] else Flatten(chunks[..|chunks| - 1]) + chunks[|chunks| - 1]
  }

  /** Chunking loses and reorders nothing: the chunks, put back together, are the page infos. */
  lemma {:induction false} FlattenChunks(info: seq<PageInfo>)
    ensures Flatten(Chunks(info)) == info
    decreases |info|
  {
    if |info| > ChunkSize {
      var rest := info[ChunkSize..];
      FlattenChunks(rest);
      FlattenPrepend([info[..ChunkSize]], Chunks(rest));
      assert Flatten([info[..ChunkSize]]) == info[..ChunkSize];
      assert info[..ChunkSize] + rest == info;
    } else if info != [] {
      assert Flatten([info]) == Flatten([info][..0]) + info;
    }
  }

  lemma {:induction false} FlattenPrepend<T>(a: seq<seq<T>>, b: seq<seq<T>>)
    ensures Flatten(a + b) == Flatten(a) + Flatten(b)
    decreases |b|
  {
    if b != [] {
      FlattenPrepend(a, b[..|b| - 1]);
      assert (a + b)[..|a + b| - 1] == a + b[..|b| - 1];
    } else {
      assert a + b == a;
    }
  }

  /** The deterministic part of `_process_page_chunk_ultra`: page numbers from 1, the resolution of the category. */
  function WorkerPages(chunk: seq<PageInfo>): (r: seq<UltraPage>)
    ensures |r| == |chunk|
    ensures forall i :: 0 <= i < |chunk| ==>
      r[i].pageNum == chunk[i].index + 1 && r[i].docType == chunk[i].docType && r[i].dpiUsed == Dpi(chunk[i].docType)
  {
    if chunk == [] then []
    else
      var p := chunk[|chunk| - 1];
      WorkerPages(chunk[..|chunk| - 1]) + [UltraPage(p.index + 1, p.docType, 0.0, p.text, Dpi(p.docType))]
  }

  function PageNum(p: UltraPage): int
  {
    p.pageNum
  }

  /** `zip(all_pages, page_info)`: the k-th page takes the k-th detected score; extra pages keep theirs. */
  function WithScores(pages: seq<UltraPage>, info: seq<PageInfo>): (r: seq<UltraPage>)
    ensures |r| == |pages|
    ensures forall k :: 0 <= k < |pages| ==>
      r[k] == if k < |info| then pages[k].(confidence := info[k].confidence) else pages[k]
  {
    if pages == [] then []
    else
      var k := |pages| - 1;
      WithScores(pages[..k], info) + [if k < |info| then pages[k].(confidence := info[k].confidence) else pages[k]]
  }

  /**
   * The end of `extract`: the pages of the chunks that completed, in completion order, put
   * together, sorted by page number, then given the detected scores position by position.
   */
  method AssemblePages(completed: seq<seq<UltraPage>>, info: seq<PageInfo>) returns (pages: seq<UltraPage>)
    ensures pages == WithScores(Sorting.SortBy(Flatten(completed), PageNum), info)
  {
    var all: seq<UltraPage> := [];
    for c := 0 to |completed|
      invariant all == Flatten(completed[..c])
    {
      assert completed[..c + 1][..c] == completed[..c];
      all := all + completed[c];
    }
    assert completed[..|completed|] == completed;
    var sorted := Sorting.SortBy(all, PageNum);
    pages := sorted;
    for k := 0 to |sorted|
      invariant |pages| == |sorted|
      invariant forall j :: 0 <= j < |sorted| ==>
        pages[j] == if j < k && j < |info| then sorted[j].(confidence := info[j].confidence) else sorted[j]
    {
      if k < |info| {
        pages := pages[k := sorted[k].(confidence := info[k].confidence)];
      }
    }
  }

  /** The assembled pages are in page-number order and are the completed pages, scores aside. */
  lemma AssembledInOrder(completed: seq<seq<UltraPage>>, info: seq<PageInfo>)
    ensures var pages := WithScores(Sorting.SortBy(Flatten(completed), PageNum), info);
      Sorting.SortedBy(pages, PageNum)
      && |pages| == |Flatten(completed)|
      && multiset(Sorting.SortBy(Flatten(completed), PageNum)) == multiset(Flatten(completed))
  {
    var all := Flatten(completed);
    Sorting.SortBySorted(all, PageNum);
    Sorting.SortByPermutes(all, PageNum);
  }

  // ================================================================== the in-memory cache

  /** `CACHE_MAX_SIZE` */
  const CacheMaxSize: nat := 10

  /** `list.remove(x)` when `x` is present; the list unchanged otherwise. */
  function RemoveFirst<T(==)>(s: seq<T>, x: T): (r: seq<T>)
    ensures x !in s ==> r == s
    ensures x in s ==> |r| == |s| - 1
  {
    if s == [] then []
    else if s[0] == x then s[1..]
    else [s[0]] + RemoveFirst(s[1..], x)
  }

  /** Removing one key from a list without repeats leaves exactly the other keys, still without repeats. */
  lemma {:induction false} RemoveFirstMembers<T>(s: seq<T>, x: T)
    requires NoDuplicates(s)
    ensures NoDuplicates(RemoveFirst(s, x))
    ensures forall k :: k in RemoveFirst(s, x) <==> k in s && k != x
  {
    if s != [] && s[0] != x {
      var tail := s[1..];
      assert NoDuplicates(tail) by {
        forall i, j | 0 <= i < j < |tail| ensures tail[i] != tail[j] {
          assert tail[i] == s[i + 1] && tail[j] == s[j + 1];
        }
      }
      RemoveFirstMembers(tail, x);
      var r := RemoveFirst(tail, x);
      assert s[0] !in tail by {
        forall j | 0 <= j < |tail| ensures tail[j] != s[0] {
          assert tail[j] == s[j + 1];
        }
      }
      assert forall k :: k in [s[0]] + r <==> k == s[0] || k in r;
      forall i, j | 0 <= i < j < |[s[0]] + r| ensures ([s[0]] + r)[i] != ([s[0]] + r)[j] {
        if i > 0 {
          assert ([s[0]] + r)[i] == r[i - 1];
        }
        assert ([s[0]] + r)[j] == r[j - 1];
      }
    } else if s != [] {
      var tail := s[1..];
      forall i, j | 0 <= i < j < |tail| ensures tail[i] != tail[j] {
        assert tail[i] == s[i + 1] && tail[j] == s[j + 1];
      }
      assert forall j :: 0 <= j < |tail| ==> tail[j] == s[j + 1];
    }
  }

  /** Moving `x` to the end of a list without repeats keeps it without repeats and keeps its members, plus `x`. */
  lemma MoveToEnd<T>(s: seq<T>, x: T)
    requires NoDuplicates(s)
    ensures NoDuplicates(RemoveFirst(s, x) + [x])
    ensures forall k :: k in RemoveFirst(s, x) + [x] <==> k in s || k == x
  {
    RemoveFirstMembers(s, x);
    var r := RemoveFirst(s, x);
    forall i, j | 0 <= i < j < |r + [x]| ensures (r + [x])[i] != (r + [x])[j] {
      assert (r + [x])[i] == r[i];
      if j < |r| {
        assert (r + [x])[j] == r[j];
      }
    }
  }

  /** The access list holds each cached key once and nothing else. */
  ghost predicate Consistent(memory: map<string, Value>, order: seq<string>)
  {
    NoDuplicates(order)
    && (forall k :: k in memory <==> k in order)
    && |memory| == |order|
  }

  /** Storing `h` and moving it to the most recent end keeps the list and the dict in step. */
  lemma StoreKeepsConsistent(memory: map<string, Value>, order: seq<string>, h: string, data: Value)
    requires Consistent(memory, order)
    ensures Consistent(memory[h := data], RemoveFirst(order, h) + [h])
  {
    MoveToEnd(order, h);
    var order' := RemoveFirst(order, h) + [h];
    if h in memory {
      assert |memory[h := data]| == |memory|;
      assert |order'| == |order|;
    } else {
      assert |memory[h := data]| == |memory| + 1;
      assert |order'| == |order| + 1;
    }
  }

  /** Evicting the least recently used key keeps the list and the dict in step. */
  lemma EvictKeepsConsistent(memory: map<string, Value>, order: seq<string>)
    requires Consistent(memory, order) && order != []
    ensures Consistent(memory - {order[0]}, order[1..])
  {
    RemoveFirstMembers(order, order[0]);
    assert RemoveFirst(order, order[0]) == order[1..];
    assert order[0] in memory;
    assert |memory - {order[0]}| == |memory| - 1;
  }

  /**
   * `UltraCache` without its lock, its disk files and its file hashing: a dict of cached
   * results and the list of their keys from least to most recently used.
   */
  class UltraCache {
    const enabled: bool
    var memory: map<string, Value>
    var accessOrder: seq<string>

    /** The access list holds each cached key once and nothing else. */
    ghost predicate Valid()
      reads this
    {
      Consistent(memory, accessOrder)
    }

    /** `UltraCache()`, with `ENABLE_CACHE` as a parameter. */
    constructor(enabled: bool)
      ensures Valid() && this.enabled == enabled && memory == map[] && accessOrder == []
    {
      this.enabled := enabled;
      memory := map[];
      accessOrder := [];
    }

    /**
     * `get` for the file whose hash is `h`; `disk` is what the cache file holds, or None when
     * it is missing or unreadable. A memory hit moves `h` to the most recent end; a disk hit
     * is added to memory without eviction.
     */
    method Get(h: string, disk: Option<Value>) returns (r: Option<Value>)
      requires Valid()
      modifies this
      ensures Valid()
      ensures !enabled ==> r == None && memory == old(memory) && accessOrder == old(accessOrder)
      ensures enabled && h in old(memory) ==>
        r == Some(old(memory)[h]) && memory == old(memory)
        && accessOrder == RemoveFirst(old(accessOrder), h) + [h]
      ensures enabled && h !in old(memory) && disk.Some? ==>
        r == disk && memory == old(memory)[h := disk.value] && accessOrder == old(accessOrder) + [h]
        && |memory| == |old(memory)| + 1
      ensures enabled && h !in old(memory) && disk.None? ==>
        r == None && memory == old(memory) && accessOrder == old(accessOrder)
    {
      if !enabled {
        return None;
      }
      if h in memory {
        StoreKeepsConsistent(memory, accessOrder, h, memory[h]);
        assert memory[h := memory[h]] == memory;
        accessOrder := RemoveFirst(accessOrder, h) + [h];
        return Some(memory[h]);
      }
      if disk.Some? {
        StoreKeepsConsistent(memory, accessOrder, h, disk.value);
        memory := memory[h := disk.value];
        accessOrder := RemoveFirst(accessOrder, h) + [h];
        return disk;
      }
      return None;
    }

    /**
     * `set` for the file whose hash is `h`: when the dict is full the least recently used key
     * is evicted first, then `h` is stored and becomes the most recent key.
     */
    method Set(h: string, data: Value)
      requires Valid()
      modifies this
      ensures Valid()
      ensures !enabled ==> memory == old(memory) && accessOrder == old(accessOrder)
      ensures enabled ==>
        var full := |old(memory)| >= CacheMaxSize;
        var m := if full then old(memory) - {old(accessOrder)[0]} else old(memory);
        var order := if full then old(accessOrder)[1..] else old(accessOrder);
        memory == m[h := data] && accessOrder == RemoveFirst(order, h) + [h]
      ensures enabled ==> h in memory && memory[h] == data && accessOrder[|accessOrder| - 1] == h
      ensures |old(memory)| <= CacheMaxSize ==> |memory| <= CacheMaxSize
    {
      if !enabled {
        return;
      }
      if |memory| >= CacheMaxSize {
        var oldest := accessOrder[0];
        EvictKeepsConsistent(memory, accessOrder);
        accessOrder := accessOrder[1..];
        memory := memory - {oldest};
      }
      StoreKeepsConsistent(memory, accessOrder, h, data);
      memory := memory[h := data];
      accessOrder := RemoveFirst(accessOrder, h) + [h];
    }
  }
}
