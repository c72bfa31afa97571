/**
 * `DualAnalysisClient`: the comparison of two independent analyses of the same PDF field
 * by field, and the merge that keeps the first analysis and annotates the disagreements.
 * The analyses themselves are inputs (parsed JSON dicts).
 */
module DualAnalysis {
  import opened Wrappers
  import opened Text
  import opened Values
  import AV = AdvancedValidation
  import Dates

  // ------------------------------------------------------------------ path lookup

  /** The value at `path` below `v`, or None once a segment is missing or a value is not a dict. */
  function NestedValue(v: Value, path: seq<string>): (r: Value)
    ensures path == [] ==> r == v
    ensures path != [] && !(v.Obj? && path[0] in v.fields) ==> r == Null
  {
    if path == [] then v
    else if v.Obj? && path[0] in v.fields then NestedValue(v.fields[path[0]], path[1..])
    else Null
  }

  /** `_get_nested_value`: walks `value` down the segments of the dotted path. */
  method GetNestedValue(data: Dict, path: seq<string>) returns (r: Value)
    ensures r == NestedValue(Obj(data), path)
  {
    var value := Obj(data);
    var i := 0;
    while i < |path|
      invariant 0 <= i <= |path|
      invariant NestedValue(value, path[i..]) == NestedValue(Obj(data), path)
    {
      assert path[i..][1..] == path[i + 1..];
      if value.Obj? && path[i] in value.fields {
        value := value.fields[path[i]];
      } else {
        return Null;
      }
      i := i + 1;
    }
    r := value;
  }

  /** A path that runs into None stays None however it continues. */
  lemma {:induction false} NestedValueOfMissing(v: Value, p: seq<string>, q: seq<string>)
    requires NestedValue(v, p) == Null
    ensures NestedValue(v, p + q) == Null
  {
    if p == [] {
      assert p + q == q;
    } else {
      assert (p + q)[1..] == p[1..] + q;
      if v.Obj? && p[0] in v.fields {
        NestedValueOfMissing(v.fields[p[0]], p[1..], q);
      }
    }
  }

  // ------------------------------------------------------------------ comparison

  /** `str(v)` for JSON scalars; lists and dicts are rendered by a fixed placeholder. */
  function Render(v: Value): string
  {
    match v
    case Null => "None"
    case Bool(b) => if b then "True" else "False"
    case Int(i) => IntToString(i)
    case Num(x) => FloatText(x)
    case Str(s) => s
    case Arr(_) => "[...]"
    case Obj(_) => "{...}"
  }

  /** `str(v) if v is not None else None` */
  function RenderOpt(v: Value): (r: Option<string>)
    ensures r.None? <==> v == Null
  {
    if v == Null then None else Some(Render(v))
  }

  /** `nested_comparisons`: the dotted paths, already split at the dots, and their labels. */
  const NestedComparisons: seq<(seq<string>, string)> := [
    (["housing_sale_application", "issue_date"], "주택매도신청서 작성일"),
    (["housing_sale_application", "land_area"], "대지면적(신청서)"),
    (["housing_sale_application", "approval_date"], "사용승인일(신청서)"),
    (["housing_sale_application", "owner_info", "name"], "소유자 성명"),
    (["housing_sale_application", "owner_info", "phone"], "소유자 전화번호"),
    (["housing_sale_application", "owner_info", "email"], "소유자 이메일"),
    (["land_ledger", "land_area"], "대지면적(토지대장)"),
    (["land_use_plan", "land_area"], "대지면적(토지이용계획)"),
    (["building_ledger_title", "approval_date"], "사용승인일(건축물대장)")
  ]

  /** One compared field: the dual result of the two analyses' values at its path. */
  function DualAt(first: Dict, second: Dict, c: (seq<string>, string)): AV.DualValidationResult
  {
    AV.CompareDualResults(RenderOpt(NestedValue(Obj(first), c.0)), RenderOpt(NestedValue(Obj(second), c.0)), c.1)
  }

  /** The dual results of the comparisons, in comparison order. */
  function DualsOf(first: Dict, second: Dict, comps: seq<(seq<string>, string)>): (r: seq<AV.DualValidationResult>)
    ensures |r| == |comps|
    ensures forall i :: 0 <= i < |comps| ==> r[i] == DualAt(first, second, comps[i])
  {
    if comps == [] then []
    else DualsOf(first, second, comps[..|comps| - 1]) + [DualAt(first, second, comps[|comps| - 1])]
  }

  /** One entry of `inconsistencies`. */
  datatype Inconsistency = Inconsistency(field: string, firstAnalysis: Value, secondAnalysis: Value)

  function InconsistencyAt(first: Dict, second: Dict, c: (seq<string>, string)): Inconsistency
  {
    Inconsistency(c.1, NestedValue(Obj(first), c.0), NestedValue(Obj(second), c.0))
  }

  /** The inconsistencies among the first `n` comparisons, in comparison order. */
  function InconsistenciesOf(first: Dict, second: Dict, comps: seq<(seq<string>, string)>): (r: seq<Inconsistency>)
    ensures |r| <= |comps|
  {
    if comps == [] then []
    else
      var init := InconsistenciesOf(first, second, comps[..|comps| - 1]);
      var c := comps[|comps| - 1];
      if !DualAt(first, second, c).isConsistent then init + [InconsistencyAt(first, second, c)] else init
  }

  /** The listed inconsistencies are exactly those of the comparisons that disagree. */
  lemma {:induction false} InconsistenciesExact(first: Dict, second: Dict, comps: seq<(seq<string>, string)>)
    ensures forall x :: x in InconsistenciesOf(first, second, comps) <==>
      exists i :: 0 <= i < |comps| && !DualAt(first, second, comps[i]).isConsistent && x == InconsistencyAt(first, second, comps[i])
  {
    if comps != [] {
      var init := comps[..|comps| - 1];
      InconsistenciesExact(first, second, init);
      assert forall i :: 0 <= i < |init| ==> init[i] == comps[i];
    }
  }

  /** The part of the dual report that counts. */
  datatype DualCounts = DualCounts(totalFieldsCompared: nat, consistentFields: int, inconsistentFields: nat)

  /** One more comparison adds its dual result, and its inconsistency when there is one. */
  lemma CompareStep(first: Dict, second: Dict, comps: seq<(seq<string>, string)>, k: nat)
    requires k < |comps|
    ensures DualsOf(first, second, comps[..k + 1]) == DualsOf(first, second, comps[..k]) + [DualAt(first, second, comps[k])]
    ensures InconsistenciesOf(first, second, comps[..k + 1]) ==
      InconsistenciesOf(first, second, comps[..k])
      + (if DualAt(first, second, comps[k]).isConsistent then [] else [InconsistencyAt(first, second, comps[k])])
  {
    assert comps[..k + 1][..k] == comps[..k];
  }

  /** The body of the comparison loop for one field: both values at its path and their dual result. */
  method CompareOne(first: Dict, second: Dict, c: (seq<string>, string))
    returns (dual: AV.DualValidationResult, firstVal: Value, secondVal: Value)
    ensures dual == DualAt(first, second, c)
    ensures Inconsistency(c.1, firstVal, secondVal) == InconsistencyAt(first, second, c)
  {
    firstVal := GetNestedValue(first, c.0);
    secondVal := GetNestedValue(second, c.0);
    dual := AV.CompareDualResults(RenderOpt(firstVal), RenderOpt(secondVal), c.1);
  }

  /** The loop of `_compare_and_merge` over a list of comparisons, recording on a validator with no dual results yet. */
  method CompareEach(first: Dict, second: Dict, comps: seq<(seq<string>, string)>, validator: AV.AdvancedValidator)
    returns (inconsistencies: seq<Inconsistency>)
    requires validator.dualResults == []
    modifies validator
    ensures validator.dualResults == DualsOf(first, second, comps)
    ensures validator.validationResults == old(validator.validationResults)
    ensures validator.manualCheckItems == old(validator.manualCheckItems)
    ensures inconsistencies == InconsistenciesOf(first, second, comps)
  {
    inconsistencies := [];
    var k := 0;
    while k < |comps|
      invariant 0 <= k <= |comps|
      invariant validator.dualResults == DualsOf(first, second, comps[..k])
      invariant validator.validationResults == old(validator.validationResults)
      invariant validator.manualCheckItems == old(validator.manualCheckItems)
      invariant inconsistencies == InconsistenciesOf(first, second, comps[..k])
    {
      var dual, firstVal, secondVal := CompareOne(first, second, comps[k]);
      validator.AddDualValidation(dual);
      CompareStep(first, second, comps, k);
      if !dual.isConsistent {
        inconsistencies := inconsistencies + [Inconsistency(comps[k].1, firstVal, secondVal)];
      }
      k := k + 1;
    }
    assert comps[..k] == comps;
  }

  /**
   * The comparison loop of `_compare_and_merge`: every listed field is compared, the dual
   * results are recorded on a fresh validator in order, and exactly the inconsistent ones
   * are listed.
   */
  method CompareFields(first: Dict, second: Dict, announcement: Dates.Date)
    returns (validator: AV.AdvancedValidator, inconsistencies: seq<Inconsistency>, counts: DualCounts)
    requires Dates.ValidDate(announcement)
    ensures fresh(validator)
    ensures validator.dualResults == DualsOf(first, second, NestedComparisons)
    ensures inconsistencies == InconsistenciesOf(first, second, NestedComparisons)
    ensures counts.totalFieldsCompared == |NestedComparisons|
    ensures counts.consistentFields + counts.inconsistentFields == counts.totalFieldsCompared
    ensures counts.inconsistentFields == |inconsistencies|
  {
    validator := new AV.AdvancedValidator(announcement);
    var comps := NestedComparisons;
    inconsistencies := CompareEach(first, second, comps, validator);
    counts := DualCounts(|comps|, |comps| - |inconsistencies|, |inconsistencies|);
  }

  // ------------------------------------------------------------------ merge

  function NoteOf(r: AV.DualValidationResult): string
  {
    "[수동확인필요] " + r.fieldName + ": 1차='" + ShowOpt(r.firstValue) + "', 2차='" + ShowOpt(r.secondValue) + "'"
  }

  /** An optional string in an f-string: "None" when absent. */
  function ShowOpt(o: Option<string>): string
  {
    if o.Some? then o.value else "None"
  }

  /** `d.get("review_summary", "")` */
  function SummaryOf(d: Dict): Value
  {
    if "review_summary" in d then d["review_summary"] else Str("")
  }

  /** The notes of the inconsistent results, in order. */
  function NotesOf(rs: seq<AV.DualValidationResult>): (notes: seq<string>)
    ensures |notes| <= |rs|
    ensures notes == [] <==> forall i :: 0 <= i < |rs| ==> rs[i].isConsistent
  {
    if rs == [] then []
    else
      var init := NotesOf(rs[..|rs| - 1]);
      assert forall i :: 0 <= i < |rs| - 1 ==> rs[..|rs| - 1][i] == rs[i];
      if !rs[|rs| - 1].isConsistent then init + [NoteOf(rs[|rs| - 1])] else init
  }

  /** `first.copy() if first else second.copy() if second else {}` */
  function Base(first: Dict, second: Dict): (r: Dict)
    ensures first != map[] ==> r == first
    ensures first == map[] ==> r == second
  {
    if first != map[] then first else if second != map[] then second else map[]
  }

  function Annotated(summary: Value, notes: seq<string>): string
  {
    Render(summary) + "\n\n" + "⚠️ 이중검증 불일치 항목 (" + NatToString(|notes|) + "건):\n" + Join(notes, "\n")
  }

  /**
   * `_merge_results`: the first analysis (or the second, or nothing) with `review_date`
   * overwritten, and the notes on the inconsistent fields appended to `review_summary`
   * when there are any.
   */
  method MergeResults(first: Dict, second: Dict, duals: seq<AV.DualValidationResult>, reviewDate: string)
    returns (merged: Dict)
    ensures "review_date" in merged && merged["review_date"] == Str(reviewDate)
    ensures forall k :: k in Base(first, second) && k != "review_date" && k != "review_summary" ==>
      k in merged && merged[k] == Base(first, second)[k]
    ensures merged.Keys <= Base(first, second).Keys + {"review_date", "review_summary"}
    ensures (forall i :: 0 <= i < |duals| ==> duals[i].isConsistent) ==>
      Get(merged, "review_summary") == Get(Base(first, second), "review_summary")
    ensures (exists i :: 0 <= i < |duals| && !duals[i].isConsistent) ==>
      "review_summary" in merged && merged["review_summary"] == Str(Annotated(SummaryOf(Base(first, second)), NotesOf(duals)))
  {
    merged := Base(first, second);
    merged := merged["review_date" := Str(reviewDate)];
    if duals != [] {
      var notes: seq<string> := [];
      var k := 0;
      while k < |duals|
        invariant 0 <= k <= |duals|
        invariant notes == NotesOf(duals[..k])
      {
        assert duals[..k + 1][..k] == duals[..k];
        if !duals[k].isConsistent {
          notes := notes + [NoteOf(duals[k])];
        }
        k := k + 1;
      }
      assert duals[..k] == duals;
      if notes != [] {
        var current := SummaryOf(merged);
        merged := merged["review_summary" := Str(Annotated(current, notes))];
      }
    }
  }
}
