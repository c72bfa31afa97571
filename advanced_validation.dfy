/**
 * `AdvancedValidator`: field-level checks that grade each extracted value as valid or not
 * with a confidence level, the comparison of two extraction passes, and the report that
 * folds the recorded checks.
 *
 * The regular expressions of `PATTERNS` that these checks use are written out as
 * scanners; `\d` and `\s` are the ASCII digits and the whitespace set of `Text`.
 */
module AdvancedValidation {
  import opened Wrappers
  import opened Text
  import opened Dates
  import opened Numbers
  import opened DataModels
  import ApprovalDates

  datatype ConfidenceLevel = High | Medium | Low | ManualCheck

  datatype ValidationItem = ValidationItem(
    fieldName: string,
    extractedValue: Option<string>,
    isValid: bool,
    confidence: ConfidenceLevel,
    validationMethod: string,
    issues: seq<string>,
    manualCheckReason: Option<string>)

  datatype DualValidationResult = DualValidationResult(
    fieldName: string,
    firstValue: Option<string>,
    secondValue: Option<string>,
    isConsistent: bool,
    finalValue: Option<string>,
    confidence: ConfidenceLevel)

  const SealMatchThreshold: real := 45.0
  const SealHighConfidence: real := 70.0
  const SealBorderline: real := 42.0
  const MinExclusiveArea: real := 16.0
  const MaxExclusiveArea: real := 85.0

  // ------------------------------------------------------------------ pattern scanners

  /** `^\d{4}-\d{2}-\d{2}$` */
  predicate IsoDateShape(s: string)
  {
    |s| == 10 && AllDigits(s[..4]) && s[4] == '-' && AllDigits(s[5..7]) && s[7] == '-' && AllDigits(s[8..])
  }

  /**
   * `\d{1,2}` followed by the character `next` at the start of `s`, returning the rest.
   * The greedy choice is the only one that can succeed, since `next` is not a digit.
   */
  function DigitsThen(s: string, next: char): (r: Option<string>)
    ensures r.Some? ==> |r.value| < |s|
  {
    var k := ApprovalDates.DigitRun12(s);
    if k == 0 || k >= |s| || s[k] != next then None else Some(s[k + 1..])
  }

  /** `^\d{4}\.\d{1,2}\.\d{1,2}$` */
  predicate DottedDateShape(s: string)
  {
    |s| >= 5 && AllDigits(s[..4]) && s[4] == '.'
    && var rest := DigitsThen(s[5..], '.');
    rest.Some? && 1 <= |rest.value| <= 2 && AllDigits(rest.value)
  }

  /** `^\d{4}년\s*\d{1,2}월\s*\d{1,2}일$` */
  predicate KoreanDateShape(s: string)
  {
    |s| >= 5 && AllDigits(s[..4]) && s[4] == '년'
    && var rest := DigitsThen(ApprovalDates.SkipSpace(s[5..]), '월');
    rest.Some?
    && var last := ApprovalDates.SkipSpace(rest.value);
    var k := ApprovalDates.DigitRun12(last);
    k > 0 && last[k..] == "일"
  }

  predicate DateShape(s: string)
  {
    IsoDateShape(s) || DottedDateShape(s) || KoreanDateShape(s)
  }

  const AreaUnits: seq<string> := ["㎡", "m²", "m2", "제곱미터"]

  const DigitsAndComma: set<char> := {'0', '1', '2', '3', '4', '5', '6', '7', '8', '9', ','}

  function SkipDigits(s: string): (r: string)
    ensures |r| <= |s| && (r == [] || !IsDigit(r[0]))
  {
    if s == [] || !IsDigit(s[0]) then s else SkipDigits(s[1..])
  }

  /**
   * `^[\d,]+\.?\d*\s*(㎡|m²|m2|제곱미터)?$`. Every quantifier is followed by something it
   * cannot consume (no unit starts with a digit, a point or whitespace), so the greedy
   * reading is the regex's.
   */
  predicate AreaShape(s: string)
  {
    var p := TakeWhile(s, DigitsAndComma);
    p != []
    && var afterPoint := (var t := s[|p|..]; if t != [] && t[0] == '.' then t[1..] else t);
    var unit := ApprovalDates.SkipSpace(SkipDigits(afterPoint));
    unit == [] || unit in AreaUnits
  }

  /** One reading of `0\d{1,2}-?\d{3,4}-?\d{4}` with `a` area digits, `b` middle digits and optional hyphens. */
  predicate PhoneFits(s: string, a: int, h1: int, b: int, h2: int)
    requires 1 <= a <= 2 && 0 <= h1 <= 1 && 3 <= b <= 4 && 0 <= h2 <= 1
  {
    var n := 1 + a + h1 + b + h2 + 4;
    |s| == n && s[0] == '0' && AllDigits(s[1..1 + a]) && (h1 == 1 ==> s[1 + a] == '-')
    && AllDigits(s[1 + a + h1..1 + a + h1 + b]) && (h2 == 1 ==> s[1 + a + h1 + b] == '-')
    && AllDigits(s[n - 4..])
  }

  /** `^0\d{1,2}-?\d{3,4}-?\d{4}` matching the whole of `s`. */
  predicate PhoneShape(s: string)
  {
    exists a, h1, b, h2 | 1 <= a <= 2 && 0 <= h1 <= 1 && 3 <= b <= 4 && 0 <= h2 <= 1 :: PhoneFits(s, a, h1, b, h2)
  }

  /** `re.match` with a final `$`, which also matches just before a trailing newline. */
  predicate PhoneMatch(s: string)
  {
    PhoneShape(s) || (|s| > 0 && s[|s| - 1] == '\n' && PhoneShape(s[..|s| - 1]))
  }

  predicate AsciiLetter(c: char) { 'a' <= c <= 'z' || 'A' <= c <= 'Z' }

  predicate LocalChar(c: char) { AsciiLetter(c) || IsDigit(c) || c in {'.', '_', '%', '+', '-'} }

  predicate DomainChar(c: char) { AsciiLetter(c) || IsDigit(c) || c == '.' || c == '-' }

  /** `^[a-zA-Z0-9._%+-]+@[a-zA-Z0-9.-]+\.[a-zA-Z]{2,}$`, as a split at '@' and at a point. */
  predicate EmailShape(s: string)
  {
    exists at, dot | 0 < at && at + 1 < dot && dot + 2 < |s| ::
      s[at] == '@' && s[dot] == '.'
      && (forall i | 0 <= i < at :: LocalChar(s[i]))
      && (forall i | at < i < dot :: DomainChar(s[i]))
      && (forall i | dot < i < |s| :: AsciiLetter(s[i]))
  }

  // ------------------------------------------------------------------ helpers

  /** `_extract_number`: commas and whitespace dropped, then `float` of the first `[\d.]+` run. */
  function ExtractNumber(value: string): (r: Option<real>)
    ensures r.Some? ==> r.value >= 0.0
    ensures value == [] ==> r.None?
  {
    if value == [] then None
    else
      var cleaned := Without(value, {','} + WhitespaceSet);
      var run := FirstRun(cleaned, DigitsAndPoint);
      if run == [] then None
      else
        var x := ParseFloat(run);
        assert run[0] != '-';
        x
  }

  /** The whitespace characters of `Text.IsSpace`, as a set. */
  const WhitespaceSet: set<char> :=
    {' ', '\t', '\n', '\r', '\U{000B}', '\U{000C}', '\U{001C}', '\U{001D}', '\U{001E}', '\U{001F}',
     '\U{0085}', '\U{00A0}', '\U{1680}', '\U{2000}', '\U{2001}', '\U{2002}', '\U{2003}', '\U{2004}', '\U{2005}', '\U{2006}',
     '\U{2007}', '\U{2008}', '\U{2009}', '\U{200A}', '\U{2028}', '\U{2029}', '\U{202F}', '\U{205F}', '\U{3000}'}

  const Separators: set<char> := {'-', '_', '.', ','}

  /** `_normalize_string`: lowercase, then whitespace and `- _ . ,` removed. */
  function NormalizeString(value: string): (r: string)
    ensures forall i :: 0 <= i < |r| ==> r[i] !in WhitespaceSet && r[i] !in Separators
    ensures forall i :: 0 <= i < |r| ==> !('A' <= r[i] <= 'Z')
  {
    var lowered := Lower(value);
    var r := Without(lowered, WhitespaceSet + Separators);
    assert forall i :: 0 <= i < |r| ==> r[i] in lowered;
    r
  }

  /** Normalising twice is normalising once. */
  lemma NormalizeIdempotent(value: string)
    ensures NormalizeString(NormalizeString(value)) == NormalizeString(value)
  {
    var r := NormalizeString(value);
    LowerOfLowerCase(r);
    WithoutNoop(r, WhitespaceSet + Separators);
  }

  /** `_parse_date`: five strptime formats on the stripped text, then its first three digit runs. */
  function ParseDate(value: string): (r: Option<Date>)
    ensures r.Some? ==> ValidDate(r.value)
  {
    var v := Strip(value);
    var p := FirstParse(v, [FmtDash, FmtDot, FmtDotSpaced, FmtKoreanSpaced, FmtKorean]);
    if p.Some? then p
    else
      var runs := DigitRuns(v);
      if |runs| >= 3 && ValidDate(Date(NatOf(runs[0]), NatOf(runs[1]), NatOf(runs[2]))) then
        Some(Date(NatOf(runs[0]), NatOf(runs[1]), NatOf(runs[2])))
      else None
  }

  function Missing(fieldName: string, method_: string, issue: string, reason: string): (r: ValidationItem)
    ensures !r.isValid && r.confidence == ManualCheck && r.extractedValue.None?
  {
    ValidationItem(fieldName, None, false, ManualCheck, method_, [issue], Some(reason))
  }

  function Accepted(fieldName: string, value: string, method_: string): (r: ValidationItem)
    ensures r.isValid && r.confidence == High && r.issues == []
  {
    ValidationItem(fieldName, Some(value), true, High, method_, [], None)
  }

  // ------------------------------------------------------------------ format checks

  /** `validate_date_format` */
  function ValidateDateFormat(value: Option<string>, fieldName: string): (r: ValidationItem)
    ensures !NonEmpty(value) ==> !r.isValid && r.confidence == ManualCheck && r.extractedValue.None?
    ensures NonEmpty(value) ==> (r.isValid <==> DateShape(Strip(value.value)))
    ensures NonEmpty(value) ==> r.extractedValue == Some(Strip(value.value))
    ensures r.isValid ==> r.confidence == High
    ensures NonEmpty(value) && !r.isValid ==> r.confidence == Low
  {
    if !NonEmpty(value) then Missing(fieldName, "정규식", "날짜 미기재", "날짜가 추출되지 않음")
    else
      var v := Strip(value.value);
      if DateShape(v) then Accepted(fieldName, v, "정규식")
      else ValidationItem(fieldName, Some(v), false, Low, "정규식", ["날짜 형식 불명확: " + v], Some("날짜 형식이 표준과 다름"))
  }

  /**
   * `validate_date_after_announcement`: a value of a recognised shape is valid exactly when
   * it parses to a date on or after the announcement; a value of no recognised shape
   * returns the format check unchanged.
   */
  function ValidateDateAfterAnnouncement(ann: Date, value: Option<string>, fieldName: string): (r: ValidationItem)
    requires ValidDate(ann)
    ensures !ValidateDateFormat(value, fieldName).isValid ==> r == ValidateDateFormat(value, fieldName)
    ensures r.isValid <==>
      ValidateDateFormat(value, fieldName).isValid && ParseDate(value.value).Some? && !Before(ParseDate(value.value).value, ann)
    ensures ValidateDateFormat(value, fieldName).isValid && ParseDate(value.value).Some? ==> r.confidence == High
  {
    var format := ValidateDateFormat(value, fieldName);
    if !format.isValid then format
    else
      var v := value.value;
      var parsed := ParseDate(v);
      if parsed.None? then
        ValidationItem(fieldName, Some(v), false, ManualCheck, "날짜비교", ["날짜 파싱 실패"], Some("날짜 형식 파싱 불가: " + v))
      else if !Before(parsed.value, ann) then Accepted(fieldName, v, "날짜비교")
      else
        ValidationItem(fieldName, Some(v), false, High, "날짜비교",
                       ["공고일(" + Iso(ann) + ") 이전 작성: " + Iso(parsed.value)], None)
  }

  /** `validate_area_format` */
  function ValidateAreaFormat(value: Option<string>, fieldName: string): (r: ValidationItem)
    ensures !NonEmpty(value) ==> !r.isValid && r.confidence == ManualCheck
    ensures NonEmpty(value) ==> (r.isValid <==> AreaShape(Strip(value.value)))
    ensures r.isValid ==> r.confidence == High
  {
    if !NonEmpty(value) then Missing(fieldName, "정규식", "면적 미기재", "면적이 추출되지 않음")
    else
      var v := Strip(value.value);
      if AreaShape(v) then Accepted(fieldName, v, "정규식")
      else ValidationItem(fieldName, Some(v), false, Low, "정규식", ["면적 형식 불명확: " + v], Some("면적 형식이 표준과 다름"))
  }

  /**
   * `validate_exclusive_area_range`: a present value is valid exactly when its first
   * number lies in [16, 85], both bounds included. Its format check only decides the
   * result for a missing value.
   */
  function ValidateExclusiveAreaRange(value: Option<string>, fieldName: string): (r: ValidationItem)
    ensures !NonEmpty(value) ==> r == ValidateAreaFormat(value, fieldName)
    ensures NonEmpty(value) ==>
      (r.isValid <==> var x := ExtractNumber(value.value); x.Some? && MinExclusiveArea <= x.value <= MaxExclusiveArea)
    ensures NonEmpty(value) && ExtractNumber(value.value).None? ==> r.confidence == ManualCheck
    ensures NonEmpty(value) && ExtractNumber(value.value).Some? ==> r.confidence == High
  {
    var format := ValidateAreaFormat(value, fieldName);
    if !NonEmpty(value) then format
    else
      var v := value.value;
      var area := ExtractNumber(v);
      if area.None? then
        ValidationItem(fieldName, Some(v), false, ManualCheck, "범위검증", ["면적 숫자 추출 실패"], Some("면적 값 파싱 불가: " + v))
      else if MinExclusiveArea <= area.value <= MaxExclusiveArea then Accepted(fieldName, v, "범위검증")
      else
        ValidationItem(fieldName, Some(v), false, High, "범위검증",
                       ["전용면적 기준 미충족: " + FloatText(area.value) + "㎡ (기준: 16~85㎡)"], None)
  }

  /** `validate_phone_format`: the hyphen- and blank-free stripped value, or the raw value, matches. */
  function ValidatePhoneFormat(value: Option<string>, fieldName: string): (r: ValidationItem)
    ensures !NonEmpty(value) ==> !r.isValid && r.confidence == ManualCheck
    ensures NonEmpty(value) ==>
      (r.isValid <==> PhoneMatch(Without(Strip(value.value), WhitespaceSet + {'-'})) || PhoneMatch(value.value))
  {
    if !NonEmpty(value) then Missing(fieldName, "정규식", "전화번호 미기재", "전화번호가 추출되지 않음")
    else
      var normalized := Without(Strip(value.value), WhitespaceSet + {'-'});
      if PhoneMatch(normalized) || PhoneMatch(value.value) then Accepted(fieldName, value.value, "정규식")
      else
        ValidationItem(fieldName, value, false, Low, "정규식", ["전화번호 형식 불명확: " + value.value], Some("전화번호 형식 확인 필요"))
  }

  /** `validate_email_format` */
  function ValidateEmailFormat(value: Option<string>, fieldName: string): (r: ValidationItem)
    ensures !NonEmpty(value) ==> !r.isValid && r.confidence == ManualCheck
    ensures NonEmpty(value) ==> (r.isValid <==> EmailShape(Strip(value.value)))
  {
    if !NonEmpty(value) then Missing(fieldName, "정규식", "이메일 미기재", "이메일이 추출되지 않음")
    else
      var v := Strip(value.value);
      if EmailShape(v) then Accepted(fieldName, v, "정규식")
      else ValidationItem(fieldName, Some(v), false, Low, "정규식", ["이메일 형식 불명확: " + v], Some("이메일 형식 확인 필요"))
  }

  // ------------------------------------------------------------------ seal

  /** `validate_seal_match`: the 45 % threshold with a 42-45 % band left to the eye. */
  function ValidateSealMatch(rate: Option<real>, fieldName: string): (r: ValidationItem)
    ensures rate.None? ==> !r.isValid && r.confidence == ManualCheck
    ensures rate.Some? ==> (r.isValid <==> rate.value >= SealMatchThreshold)
    ensures rate.Some? && rate.value >= SealMatchThreshold ==>
      (r.confidence == High <==> rate.value >= SealHighConfidence) && (r.confidence == Medium <==> rate.value < SealHighConfidence)
    ensures rate.Some? && SealBorderline <= rate.value < SealMatchThreshold ==> r.confidence == ManualCheck
    ensures rate.Some? && rate.value < SealBorderline ==> r.confidence == High
  {
    if rate.None? then Missing(fieldName, "인감비교", "인감 일치율 측정 불가", "인감 이미지 인식 실패")
    else
      var x := rate.value;
      var shown := Fmt1(x) + "%";
      if x >= SealMatchThreshold then
        ValidationItem(fieldName, Some(shown), true, if x >= SealHighConfidence then High else Medium, "인감비교", [], None)
      else if x >= SealBorderline then
        ValidationItem(fieldName, Some(shown), false, ManualCheck, "인감비교", ["인감 일치율 경계: " + Fmt1(x) + "% (기준: 45%)"],
                       Some("인감 일치율이 기준치 근처 - 육안 확인 필요"))
      else
        ValidationItem(fieldName, Some(shown), false, High, "인감비교", ["인감 불일치: " + Fmt1(x) + "% (기준: 45%)"], None)
  }

  // ------------------------------------------------------------------ cross-document

  /** The entries of a `{document: value}` dict whose value is not None, in order. */
  function NonNull(values: seq<(string, Option<string>)>): (r: seq<(string, string)>)
    ensures |r| <= |values|
    ensures forall e :: e in r <==> (e.0, Some(e.1)) in values
  {
    if values == [] then []
    else
      var rest := NonNull(values[1..]);
      assert forall e :: e in values <==> e == values[0] || e in values[1..];
      if values[0].1.Some? then [(values[0].0, values[0].1.value)] + rest else rest
  }

  /** The numbers `_extract_number` finds in the values, in order. */
  function NumbersIn(entries: seq<(string, string)>): (r: seq<real>)
    ensures |r| <= |entries|
    ensures forall i :: 0 <= i < |r| ==> r[i] >= 0.0
  {
    if entries == [] then []
    else
      var x := ExtractNumber(entries[0].1);
      (if x.Some? then [x.value] else []) + NumbersIn(entries[1..])
  }

  /** `abs(n - base) / base <= tolerance if base > 0 else n == base` for every number. */
  predicate NumbersAgree(nums: seq<real>, tolerance: real)
    requires nums != []
  {
    var base := nums[0];
    forall i :: 0 <= i < |nums| ==>
      if base > 0.0 then (if nums[i] >= base then nums[i] - base else base - nums[i]) / base <= tolerance
      else nums[i] == base
  }

  predicate AllSameNormalized(vals: seq<(string, string)>)
    requires vals != []
  {
    forall i :: 0 <= i < |vals| ==> NormalizeString(vals[i].1) == NormalizeString(vals[0].1)
  }

  /** `str(d)` of a `{str: str}` dict (Python quoting and escaping are not modelled). */
  function DictRepr(entries: seq<(string, string)>): string
  {
    "{" + Join(seq(|entries|, i requires 0 <= i < |entries| => "'" + entries[i].0 + "': '" + entries[i].1 + "'"), ", ") + "}"
  }

  /**
   * `validate_cross_match`: with fewer than two present values, a manual check; with two
   * or more numbers, all within the relative tolerance of the first (exactly equal when the
   * first is 0); otherwise all equal after normalisation.
   */
  function ValidateCrossMatch(values: seq<(string, Option<string>)>, fieldName: string, tolerance: real): (r: ValidationItem)
    ensures |NonNull(values)| < 2 ==> !r.isValid && r.confidence == ManualCheck
    ensures |NonNull(values)| >= 2 && |NumbersIn(NonNull(values))| >= 2 ==>
      r.confidence == High && (r.isValid <==> NumbersAgree(NumbersIn(NonNull(values)), tolerance))
    ensures |NonNull(values)| >= 2 && |NumbersIn(NonNull(values))| < 2 ==>
      (r.isValid <==> AllSameNormalized(NonNull(values)))
      && (r.confidence == if r.isValid then High else Medium)
  {
    var present := NonNull(values);
    var shown := DictRepr(present);
    if |present| < 2 then
      ValidationItem(fieldName, Some(shown), false, ManualCheck, "교차검증", ["비교할 서류 부족"], Some("2개 이상 서류에서 값 추출 필요"))
    else
      var nums := NumbersIn(present);
      if |nums| >= 2 then
        if NumbersAgree(nums, tolerance) then Accepted(fieldName, shown, "교차검증")
        else ValidationItem(fieldName, Some(shown), false, High, "교차검증", ["서류 간 값 불일치: " + shown], None)
      else if AllSameNormalized(present) then Accepted(fieldName, shown, "교차검증")
      else
        ValidationItem(fieldName, Some(shown), false, Medium, "교차검증", ["서류 간 값 불일치: " + shown],
                       Some("값 불일치 - 어떤 서류가 정확한지 확인 필요"))
  }

  // ------------------------------------------------------------------ dual pass

  function Max3(a: real, b: real, c: real): real
  {
    if a >= b && a >= c then a else if b >= c then b else c
  }

  /** Two numbers within 1 % of the largest of them and 1. */
  predicate Close(x: real, y: real)
  {
    (if x >= y then x - y else y - x) / Max3(x, y, 1.0) < 0.01
  }

  /**
   * `compare_dual_results`: two absences are consistent but left to a manual check; one
   * absence is inconsistent and keeps the present value; equal normalised text, or numbers
   * within 1 %, are consistent with high confidence and keep the first value.
   */
  function CompareDualResults(first: Option<string>, second: Option<string>, fieldName: string): (r: DualValidationResult)
    ensures first.None? && second.None? ==> r.isConsistent && r.confidence == ManualCheck && r.finalValue.None?
    ensures first.None? != second.None? ==>
      !r.isConsistent && r.confidence == Low && r.finalValue == (if first.Some? && first.value != [] then first else second)
    ensures first.Some? && second.Some? && NormalizeString(first.value) == NormalizeString(second.value) ==>
      r.isConsistent && r.confidence == High && r.finalValue == first
    ensures first.Some? && second.Some? ==>
      (r.isConsistent <==>
         (NormalizeString(first.value) == NormalizeString(second.value)
          || (ExtractNumber(first.value).Some? && ExtractNumber(second.value).Some?
              && Close(ExtractNumber(first.value).value, ExtractNumber(second.value).value))))
    ensures r.firstValue == first && r.secondValue == second && r.fieldName == fieldName
  {
    if first.None? && second.None? then DualValidationResult(fieldName, None, None, true, None, ManualCheck)
    else if first.None? || second.None? then
      DualValidationResult(fieldName, first, second, false, if first.Some? && first.value != [] then first else second, Low)
    else if NormalizeString(first.value) == NormalizeString(second.value) then
      DualValidationResult(fieldName, first, second, true, first, High)
    else
      var n1 := ExtractNumber(first.value);
      var n2 := ExtractNumber(second.value);
      if n1.Some? && n2.Some? && Close(n1.value, n2.value) then
        DualValidationResult(fieldName, first, second, true, first, High)
      else DualValidationResult(fieldName, first, second, false, None, ManualCheck)
  }

  // ------------------------------------------------------------------ the validator's records

  function ManualOf(items: seq<ValidationItem>): (r: seq<ValidationItem>)
    ensures forall x :: x in r <==> x in items && x.confidence == ManualCheck
    ensures |r| <= |items|
  {
    if items == [] then []
    else
      var init := ManualOf(items[..|items| - 1]);
      var last := items[|items| - 1];
      assert items == items[..|items| - 1] + [last];
      if last.confidence == ManualCheck then init + [last] else init
  }

  function CountValid(items: seq<ValidationItem>): (n: nat)
    ensures n <= |items|
  {
    if items == [] then 0 else (if items[0].isValid then 1 else 0) + CountValid(items[1..])
  }

  function CountHigh(items: seq<ValidationItem>): (n: nat)
    ensures n <= |items|
  {
    if items == [] then 0 else (if items[0].confidence == High then 1 else 0) + CountHigh(items[1..])
  }

  function Inconsistent(rs: seq<DualValidationResult>): (r: seq<DualValidationResult>)
    ensures forall x :: x in r <==> x in rs && !x.isConsistent
  {
    if rs == [] then []
    else
      assert forall x :: x in rs <==> x == rs[0] || x in rs[1..];
      (if !rs[0].isConsistent then [rs[0]] else []) + Inconsistent(rs[1..])
  }

  /** Recording one more item extends the manual-check list by that item when it needs a manual check. */
  lemma ManualOfSnoc(items: seq<ValidationItem>, x: ValidationItem)
    ensures ManualOf(items + [x]) == ManualOf(items) + (if x.confidence == ManualCheck then [x] else [])
  {
    assert (items + [x])[..|items|] == items;
  }

  datatype ValidationReport = ValidationReport(
    totalValidations: nat,
    validCount: nat,
    invalidCount: int,
    manualCheckRequired: nat,
    highConfidenceRate: string,
    manualCheckItems: seq<ValidationItem>,
    dualInconsistencies: seq<DualValidationResult>,
    allValidations: seq<ValidationItem>)

  class AdvancedValidator {
    const announcementDate: Date
    var validationResults: seq<ValidationItem>
    var dualResults: seq<DualValidationResult>
    var manualCheckItems: seq<ValidationItem>

    /** The manual-check list is exactly the manual-check items of the records, in order. */
    predicate Valid()
      reads this
    {
      manualCheckItems == ManualOf(validationResults)
    }

    constructor(announcement: Date)
      requires ValidDate(announcement)
      ensures Valid() && announcementDate == announcement
      ensures validationResults == [] && dualResults == [] && manualCheckItems == []
    {
      announcementDate := announcement;
      validationResults := [];
      dualResults := [];
      manualCheckItems := [];
    }

    /** `add_validation`: every item is recorded; manual-check items are also listed apart. */
    method AddValidation(item: ValidationItem)
      requires Valid()
      modifies this
      ensures Valid()
      ensures validationResults == old(validationResults) + [item]
      ensures manualCheckItems == old(manualCheckItems) + (if item.confidence == ManualCheck then [item] else [])
      ensures dualResults == old(dualResults)
    {
      ManualOfSnoc(validationResults, item);
      validationResults := validationResults + [item];
      if item.confidence == ManualCheck {
        manualCheckItems := manualCheckItems + [item];
      }
    }

    /** `add_dual_validation` */
    method AddDualValidation(result: DualValidationResult)
      modifies this
      ensures dualResults == old(dualResults) + [result]
      ensures validationResults == old(validationResults) && manualCheckItems == old(manualCheckItems)
    {
      dualResults := dualResults + [result];
    }

    /** `generate_report` */
    function Report(): (r: ValidationReport)
      reads this
      requires Valid()
      ensures r.totalValidations == |validationResults|
      ensures r.invalidCount == r.totalValidations - r.validCount >= 0
      ensures r.manualCheckRequired == |r.manualCheckItems|
      ensures forall x :: x in r.manualCheckItems <==> x in validationResults && x.confidence == ManualCheck
      ensures forall x :: x in r.dualInconsistencies <==> x in dualResults && !x.isConsistent
      ensures r.highConfidenceRate == "N/A" <==> validationResults == []
    {
      var total := |validationResults|;
      var valid := CountValid(validationResults);
      var rate :=
        if total > 0 then
          var t := Fmt1(CountHigh(validationResults) as real / total as real * 100.0) + "%";
          assert t[|t| - 1] != "N/A"[2];
          t
        else "N/A";
      ValidationReport(total, valid, total - valid, |manualCheckItems|, rate, manualCheckItems,
                       Inconsistent(dualResults), validationResults)
    }
  }

  // ------------------------------------------------------------------ laws

  /** A date printed as "%Y-%m-%d" has a recognised shape and parses back to itself. */
  lemma IsoDateAccepted(ann: Date, d: Date, fieldName: string)
    requires ValidDate(ann) && ValidDate(d) && 1000 <= d.year
    ensures ValidateDateAfterAnnouncement(ann, Some(Iso(d)), fieldName).isValid <==> !Before(d, ann)
  {
    var s := Iso(d);
    IsoRoundTrip(d);
    ApprovalDates.AllDigitsStripFormatted(d);
    assert IsoDateShape(s);
    assert s != [];
  }

  /** Whether two passes agree does not depend on which pass came first. */
  lemma DualConsistencySymmetric(a: Option<string>, b: Option<string>, fieldName: string)
    ensures CompareDualResults(a, b, fieldName).isConsistent == CompareDualResults(b, a, fieldName).isConsistent
  {
    if a.Some? && b.Some? {
      var x, y := ExtractNumber(a.value), ExtractNumber(b.value);
      if x.Some? && y.Some? {
        assert Max3(x.value, y.value, 1.0) == Max3(y.value, x.value, 1.0);
        assert Close(x.value, y.value) == Close(y.value, x.value);
      }
    }
  }

  /** The range check ignores the area's format: a number inside free text still passes. */
  lemma RangeIgnoresFormat()
    ensures !ValidateAreaFormat(Some("약 50평"), "전용면적").isValid
    ensures ValidateExclusiveAreaRange(Some("약 50평"), "전용면적").isValid
  {
    var v := "약 50평";
    assert NonEmpty(Some(v));
    FreeTextNotArea(v);
    FiftyInText();
  }

  lemma FreeTextNotArea(v: string)
    requires v == "약 50평"
    ensures !AreaShape(Strip(v))
  {
    FreeTextStripped(v);
    NoLeadingDigitNotArea(v);
  }

  lemma FreeTextStripped(v: string)
    requires v == "약 50평"
    ensures Strip(v) == v
  {
    StripNoEdgeSpace(v);
  }

  /** An area must open with a digit or a comma. */
  lemma NoLeadingDigitNotArea(s: string)
    requires s != [] && s[0] !in DigitsAndComma
    ensures !AreaShape(s)
  {
  }

  lemma FiftyInText()
    ensures ExtractNumber("약 50평") == Some(50.0)
  {
    FiftyCleaned();
    FiftyRun();
    assert ParseFloat("50") == Some(50.0) by {
      assert NatToString(50) == "50";
      ParseFloatOfNat(50);
    }
  }

  lemma FiftyCleaned()
    ensures Without("약 50평", {','} + WhitespaceSet) == "약50평"
  {
    var drop := {','} + WhitespaceSet;
    assert Without("평", drop) == "평";
    assert Without("0평", drop) == "0평";
    assert Without("50평", drop) == "50평";
    assert Without(" 50평", drop) == "50평";
  }

  lemma FiftyRun()
    ensures FirstRun("약50평", DigitsAndPoint) == "50"
  {
    assert TakeWhile("평", DigitsAndPoint) == [];
    assert TakeWhile("0평", DigitsAndPoint) == "0";
    assert TakeWhile("50평", DigitsAndPoint) == "50";
  }
}
