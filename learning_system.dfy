/**
 * The pattern-based post-processing of core/learning_system.py: the default extraction
 * patterns, the readers of `PatternBasedExtractor` (`extract_boolean`, `extract_number`,
 * `_guess_boolean`, `_interpret_matched_value`), the corrections of
 * `ResultPostProcessor.process`, and the in-memory part of learning from user feedback.
 *
 * The regular expressions of the default patterns are searched by a small backtracking
 * matcher written for exactly the constructs they use (literals, `.*?`, `[^\n]*?`, `\s*`,
 * `\d+`, `\d{m,n}`, optional and one-of classes, one capturing group of alternatives),
 * case-insensitively as `re.IGNORECASE` asks.
 */
module LearningSystem {
  import opened Wrappers
  import opened Text
  import opened Values
  import opened Numbers
  import DualAnalysis

  /** The confidence labels "high", "medium" and "low". */
  datatype Confidence = High | Medium | Low

  // ================================================================== regular expressions

  /** `.` and `[^\n]` (no DOTALL), `\s`, `\d`, or a bracketed set of characters. */
  datatype CharClass = NotNewline | Space | Digit | OneOf(chars: set<char>)

  /** One alternative of a capturing group: a word, or `\d+`. */
  datatype Alternative = Word(w: string) | DigitRun

  /**
   * One element of a pattern: a literal, a repetition of a class between `min` and `max`
   * times (lazy or greedy), a set of alternatives, or the bounds of the capturing group.
   */
  datatype Item =
    | Lit(s: string)
    | Repeat(cls: CharClass, min: nat, max: Option<nat>, lazy: bool)
    | Choice(alts: seq<Alternative>)
    | Open
    | Close

  type Regex = seq<Item>

  predicate InClass(c: char, cls: CharClass)
  {
    match cls
    case NotNewline => c != '\n'
    case Space => IsSpace(c)
    case Digit => IsDigit(c)
    case OneOf(chars) => c in chars
  }

  /** `w` occurs at position `i` of `s`, ignoring ASCII case. */
  predicate WordAt(s: string, i: nat, w: string)
  {
    i + |w| <= |s| && Lower(s[i..i + |w|]) == Lower(w)
  }

  /** The length of the run of `cls` characters at `i`, at most `limit`. */
  function RunLength(s: string, i: nat, cls: CharClass, limit: nat): (n: nat)
    requires i <= |s|
    ensures i + n <= |s| && n <= limit
    ensures forall k :: i <= k < i + n ==> InClass(s[k], cls)
    ensures n < limit && i + n < |s| ==> !InClass(s[i + n], cls)
    decreases limit
  {
    if limit == 0 || i == |s| || !InClass(s[i], cls) then 0
    else 1 + RunLength(s, i + 1, cls, limit - 1)
  }

  function Ascending(lo: nat, hi: nat): (r: seq<nat>)
    ensures forall k :: 0 <= k < |r| ==> lo <= r[k] <= hi
    decreases hi - lo
  {
    if lo > hi then [] else [lo] + Ascending(lo + 1, hi)
  }

  function Descending(hi: nat, lo: nat): (r: seq<nat>)
    ensures forall k :: 0 <= k < |r| ==> lo <= r[k] <= hi
    decreases hi - lo
  {
    if lo > hi then [] else [hi] + (if hi == 0 then [] else Descending(hi - 1, lo))
  }

  /** The end positions a group of alternatives can reach from `i`, in backtracking order. */
  function AltSteps(alts: seq<Alternative>, s: string, i: nat): (r: seq<nat>)
    requires i <= |s|
    ensures forall k :: 0 <= k < |r| ==> i <= r[k] <= |s|
  {
    if alts == [] then []
    else
      var first :=
        match alts[0]
        case Word(w) => if WordAt(s, i, w) then [i + |w|] else []
        case DigitRun =>
          var n := RunLength(s, i, Digit, |s| - i);
          if n == 0 then [] else Descending(i + n, i + 1);
      first + AltSteps(alts[1..], s, i)
  }

  /** The end positions one item can reach from `i`, in the order the regex engine tries them. */
  function Steps(item: Item, s: string, i: nat): (r: seq<nat>)
    requires i <= |s|
    ensures forall k :: 0 <= k < |r| ==> i <= r[k] <= |s|
  {
    match item
    case Lit(w) => if WordAt(s, i, w) then [i + |w|] else []
    case Repeat(cls, lo, hi, lazy) =>
      var limit := if hi.Some? && hi.value < |s| - i then hi.value else |s| - i;
      var n := RunLength(s, i, cls, limit);
      if n < lo then []
      else if lazy then Ascending(i + lo, i + n)
      else Descending(i + n, i + lo)
    case Choice(alts) => AltSteps(alts, s, i)
    case Open => [i]
    case Close => [i]
  }

  /** A recorded group span lies inside the text. */
  predicate SpanIn(cap: Option<(nat, nat)>, n: nat)
  {
    cap.Some? ==> cap.value.0 <= cap.value.1 <= n
  }

  /**
   * The first way `re` matches `s` from position `i`, as a backtracking engine finds it:
   * the end of the match and the span of the group. `open` is where the group began.
   */
  function MatchAt(re: Regex, s: string, i: nat, open: nat, cap: Option<(nat, nat)>): (r: Option<(nat, Option<(nat, nat)>)>)
    requires open <= i <= |s| && SpanIn(cap, |s|)
    ensures r.Some? ==> i <= r.value.0 <= |s| && SpanIn(r.value.1, |s|)
    decreases |re|, 1, 0
  {
    if re == [] then Some((i, cap))
    else
      match re[0]
      case Open => MatchAt(re[1..], s, i, i, cap)
      case Close => MatchAt(re[1..], s, i, open, Some((open, i)))
      case _ => TryEach(re[1..], s, i, Steps(re[0], s, i), open, cap)
  }

  /** Tries the rest of the pattern from each candidate end in turn; the first success wins. */
  function TryEach(rest: Regex, s: string, i: nat, ends: seq<nat>, open: nat, cap: Option<(nat, nat)>)
    : (r: Option<(nat, Option<(nat, nat)>)>)
    requires open <= i <= |s| && SpanIn(cap, |s|)
    requires forall k :: 0 <= k < |ends| ==> i <= ends[k] <= |s|
    ensures r.Some? ==> i <= r.value.0 <= |s| && SpanIn(r.value.1, |s|)
    decreases |rest| + 1, 0, |ends|
  {
    if ends == [] then None
    else
      var m := MatchAt(rest, s, ends[0], open, cap);
      if m.Some? then m else TryEach(rest, s, i, ends[1..], open, cap)
  }

  /** A match: where it starts and ends, and the span of the group. */
  datatype Found = Found(start: nat, end: nat, group: Option<(nat, nat)>)

  /** `re.search(regex, s, re.IGNORECASE)`, trying start positions from `i` on. */
  function SearchFrom(re: Regex, s: string, i: nat): (r: Option<Found>)
    requires i <= |s|
    ensures r.Some? ==> i <= r.value.start <= r.value.end <= |s| && SpanIn(r.value.group, |s|)
    ensures r.Some? ==> MatchAt(re, s, r.value.start, r.value.start, None) == Some((r.value.end, r.value.group))
    ensures r.Some? ==> forall j :: i <= j < r.value.start ==> MatchAt(re, s, j, j, None).None?
    ensures r.None? ==> forall j :: i <= j <= |s| ==> MatchAt(re, s, j, j, None).None?
    decreases |s| - i
  {
    var m := MatchAt(re, s, i, i, None);
    if m.Some? then Some(Found(i, m.value.0, m.value.1))
    else if i == |s| then None
    else SearchFrom(re, s, i + 1)
  }

  /** `match.group(1) if match.groups() else match.group(0)` */
  function MatchedText(s: string, f: Found): (r: string)
    requires f.start <= f.end <= |s| && SpanIn(f.group, |s|)
    ensures Contains(s, r)
  {
    if f.group.Some? then
      ContainsSlice(s, f.group.value.0, f.group.value.1);
      s[f.group.value.0..f.group.value.1]
    else
      ContainsSlice(s, f.start, f.end);
      s[f.start..f.end]
  }

  /** The group of the first pattern of the list that matches `text`. */
  function FirstMatch(regexes: seq<Regex>, text: string): (r: Option<string>)
    ensures r.Some? ==> Contains(text, r.value)
    ensures r.None? <==> forall k :: 0 <= k < |regexes| ==> SearchFrom(regexes[k], text, 0).None?
  {
    if regexes == [] then None
    else
      var f := SearchFrom(regexes[0], text, 0);
      if f.Some? then Some(MatchedText(text, f.value)) else FirstMatch(regexes[1..], text)
  }

  // ================================================================== the default patterns

  /** `ExtractionPattern`; a `None` in `null_values` is `None` here too. */
  datatype ExtractionPattern = ExtractionPattern(
    fieldName: string,
    documentType: string,
    patterns: seq<Regex>,
    trueValues: seq<string>,
    falseValues: seq<string>,
    nullValues: seq<Option<string>>,
    examples: seq<Dict>)

  function Words(ws: seq<string>): (r: seq<Alternative>)
    ensures |r| == |ws|
    ensures forall k :: 0 <= k < |ws| ==> r[k] == Word(ws[k])
  {
    if ws == [] then [] else [Word(ws[0])] + Words(ws[1..])
  }

  /** `.*?` and `[^\n]*?` */
  const AnyLazy: Item := Repeat(NotNewline, 0, None, true)
  /** `\s*` */
  const Blanks: Item := Repeat(Space, 0, None, false)
  /** `[:：]?` */
  const OptColon: Item := Repeat(OneOf({':', '：'}), 0, Some(1), false)
  /** `\d+` */
  const Digits1: Item := Repeat(Digit, 1, None, false)

  /** `(\d+)` */
  const DigitGroup: Regex := [Open, Digits1, Close]

  function Example(raw: string, value: Value): Dict
  {
    map["raw" := Str(raw), "value" := value]
  }

  const SeismicPattern: ExtractionPattern := ExtractionPattern(
    "내진설계 적용 여부", "건축물대장 표제부",
    [ [Lit("내진"), AnyLazy, Lit("설계"), AnyLazy,
       Open, Choice(Words(["적용", "해당", "Y", "예", "O", "○", "있음"])), Close],
      [Lit("내진"), AnyLazy, Lit("설계"), AnyLazy,
       Open, Choice(Words(["미적용", "해당없음", "N", "아니오", "X", "×", "없음"])), Close],
      [Lit("내진"), Repeat(OneOf({'설', '계'}), 0, Some(1), false), Blanks, OptColon, Blanks,
       Open, Choice(Words(["적용", "미적용", "해당", "해당없음"])), Close] ],
    SeismicTrue, SeismicFalse,
    [Some(""), Some("-"), Some("미확인"), Some("확인불가"), None],
    [ Example("내진설계적용여부: 적용", Bool(true)),
      Example("내진설계 : 적용", Bool(true)),
      Example("내진설계적용여부: 해당없음", Bool(false)) ])

  const SeismicTrue: seq<string> := ["적용", "해당", "Y", "예", "O", "○", "있음", "적용됨", "true", "True"]
  const SeismicFalse: seq<string> := ["미적용", "해당없음", "N", "아니오", "X", "×", "없음", "false", "False"]

  const BasementPattern: ExtractionPattern := ExtractionPattern(
    "지하층 유무", "건축물대장 표제부",
    [ [Lit("지하"), Blanks] + DigitGroup + [Blanks, Lit("층")],
      [Lit("지하층"), Blanks, OptColon, Blanks, Open, Choice([DigitRun, Word("없음"), Word("있음")]), Close],
      [Lit("층수"), AnyLazy, Lit("지하"), Blanks] + DigitGroup ],
    ["있음", "1", "2", "3", "4", "5"],
    ["없음", "0", "-", "해당없음"],
    [Some(""), Some("미확인"), Some("확인불가"), None],
    [ Example("지상5층 지하1층", Bool(true)),
      Example("지상3층", Bool(false)),
      Example("층수: 지상 5층, 지하 없음", Bool(false)) ])

  const ElevatorPattern: ExtractionPattern := ExtractionPattern(
    "승강기 설치 여부", "건축물대장 표제부",
    [ [Lit("승강기"), AnyLazy, Open, Choice([DigitRun] + Words(["있음", "없음", "설치", "미설치"])), Close],
      [Lit("엘리베이터"), AnyLazy, Open, Choice([DigitRun] + Words(["있음", "없음", "설치", "미설치"])), Close],
      [Lit("승강기"), Blanks, OptColon, Blanks] + DigitGroup + [Blanks, Lit("대")] ],
    ["있음", "설치", "1", "2", "3", "4", "5"],
    ["없음", "미설치", "0", "-", "해당없음"],
    [Some(""), Some("미확인"), Some("확인불가"), None],
    [ Example("승강기: 2대", Bool(true)),
      Example("승강기 없음", Bool(false)) ])

  const OutdoorParkingPattern: ExtractionPattern := ExtractionPattern(
    "옥외 주차장 대수", "건축물대장 표제부",
    [ [Lit("옥외"), AnyLazy] + DigitGroup + [Blanks, Lit("대")],
      [Lit("옥외주차"), AnyLazy] + DigitGroup,
      [Lit("주차장"), AnyLazy, Lit("옥외"), Blanks] + DigitGroup ],
    [], [],
    [Some(""), Some("-"), Some("미확인"), None],
    [ Example("주차장: 옥외 10대, 옥내 5대", Int(10)) ])

  const IndoorParkingPattern: ExtractionPattern := ExtractionPattern(
    "옥내 주차장 대수", "건축물대장 표제부",
    [ [Lit("옥내"), AnyLazy] + DigitGroup + [Blanks, Lit("대")],
      [Lit("옥내주차"), AnyLazy] + DigitGroup,
      [Lit("주차장"), AnyLazy, Lit("옥내"), Blanks] + DigitGroup ],
    [], [],
    [Some(""), Some("-"), Some("미확인"), None],
    [])

  const MechanicalParkingPattern: ExtractionPattern := ExtractionPattern(
    "기계식 주차장 대수", "건축물대장 표제부",
    [ [Lit("기계식"), AnyLazy] + DigitGroup + [Blanks, Lit("대")],
      [Lit("기계"), Repeat(OneOf({'식'}), 0, Some(1), false), Lit("주차"), AnyLazy] + DigitGroup ],
    [], [],
    [Some(""), Some("-"), Some("미확인"), Some("없음"), None],
    [])

  /** `\d{4}[-./년]\s*\d{1,2}[-./월]\s*\d{1,2}` inside the group. */
  const DateGroup: Regex := [
    Open, Repeat(Digit, 4, Some(4), false), Repeat(OneOf({'-', '.', '/', '년'}), 1, Some(1), false), Blanks,
    Repeat(Digit, 1, Some(2), false), Repeat(OneOf({'-', '.', '/', '월'}), 1, Some(1), false), Blanks,
    Repeat(Digit, 1, Some(2), false), Close ]

  const ApprovalDatePattern: ExtractionPattern := ExtractionPattern(
    "사용승인일", "건축물대장 표제부",
    [ [Lit("사용승인일"), AnyLazy] + DateGroup,
      [Lit("사용승인"), AnyLazy] + DateGroup ],
    [], [],
    [Some(""), Some("-"), Some("미확인"), None],
    [ Example("사용승인일: 2015.03.20", Str("2015-03-20")) ])

  /** The keys of `_get_default_patterns()`. */
  const DefaultKeys: set<string> := {"seismic_design", "has_basement", "has_elevator",
    "outdoor_parking", "indoor_parking", "mechanical_parking", "approval_date"}

  /** The default pattern of each default key. */
  function DefaultPattern(key: string): ExtractionPattern
  {
    if key == "seismic_design" then SeismicPattern
    else if key == "has_basement" then BasementPattern
    else if key == "has_elevator" then ElevatorPattern
    else if key == "outdoor_parking" then OutdoorParkingPattern
    else if key == "indoor_parking" then IndoorParkingPattern
    else if key == "mechanical_parking" then MechanicalParkingPattern
    else ApprovalDatePattern
  }

  /** `_get_default_patterns()` */
  const DefaultPatterns: map<string, ExtractionPattern> := map k | k in DefaultKeys :: DefaultPattern(k)

  // ================================================================== field keys

  /** The Korean field names `_get_field_key` knows. */
  const FieldKeyMap: map<string, string> := map[
    "내진설계" := "seismic_design",
    "내진설계 적용 여부" := "seismic_design",
    "지하층" := "has_basement",
    "지하층 유무" := "has_basement",
    "승강기" := "has_elevator",
    "승강기 설치 여부" := "has_elevator",
    "옥외 주차장" := "outdoor_parking",
    "옥내 주차장" := "indoor_parking",
    "기계식 주차장" := "mechanical_parking",
    "사용승인일" := "approval_date"
  ]

  /** `s.replace(" ", "_")` */
  function Underscored(s: string): (r: string)
    ensures |r| == |s|
    ensures forall i :: 0 <= i < |s| ==> r[i] == (if s[i] == ' ' then '_' else s[i])
  {
    if s == [] then [] else [if s[0] == ' ' then '_' else s[0]] + Underscored(s[1..])
  }

  /** `_get_field_key`: a known Korean name's key, else the name lower-cased with `_` for spaces. */
  function FieldKey(name: string): (r: string)
    ensures name in FieldKeyMap ==> r in DefaultPatterns
    ensures name !in FieldKeyMap ==> |r| == |name| && IsLowerCase(r) && ' ' !in r
    ensures name !in FieldKeyMap ==>
      forall i :: 0 <= i < |name| && name[i] != ' ' ==> r[i] == LowerChar(name[i])
  {
    if name in FieldKeyMap then FieldKeyMap[name] else Underscored(Lower(name))
  }

  /** Every known Korean field name leads to a default pattern. */
  lemma FieldKeysResolve()
    ensures forall name :: name in FieldKeyMap ==> FieldKey(name) in DefaultPatterns
  {
  }

  /** The known Korean field names are at most eleven characters long. */
  lemma KnownNamesShort()
    ensures forall name :: name in FieldKeyMap ==> |name| <= 11
  {
  }

  /**
   * A key longer than any known name, made of lower-case ASCII letters and underscores, is
   * its own field key: every default key is one.
   */
  lemma SnakeKey(k: string)
    requires |k| > 11 && forall i :: 0 <= i < |k| ==> 'a' <= k[i] <= 'z' || k[i] == '_'
    ensures FieldKey(k) == k
  {
    KnownNamesShort();
    LowerOfLowerCase(k);
  }

  // ================================================================== guessing and reading values

  /** The rendering `str(v)` of a value (lists and dicts by a placeholder). */
  function Render(v: Value): string
  {
    DualAnalysis.Render(v)
  }

  const GuessTrue: seq<string> := ["true", "1", "yes", "y", "적용", "있음", "해당", "o", "○"]
  const GuessFalse: seq<string> := ["false", "0", "no", "n", "미적용", "없음", "해당없음", "x", "×"]

  /** `_guess_boolean` */
  function GuessBoolean(v: Value): (r: Option<bool>)
    ensures v == Null ==> r == None
    ensures v.Bool? ==> r == Some(v.b)
    ensures r == Some(true) ==> v.Bool? || Strip(Lower(Render(v))) in GuessTrue
    ensures r == Some(false) ==> v.Bool? || Strip(Lower(Render(v))) in GuessFalse
  {
    if v == Null then None
    else if v.Bool? then Some(v.b)
    else
      var s := Strip(Lower(Render(v)));
      if s in GuessTrue then Some(true)
      else if s in GuessFalse then Some(false)
      else None
  }

  /** The two word lists share no word, so a listed word is guessed one way only. */
  lemma GuessWordsDisjoint()
    ensures forall w :: w in GuessTrue ==> w !in GuessFalse
  {
  }

  /** Printable ASCII, Latin-1 letters and signs, and the symbols and syllables above U+2060 are not whitespace. */
  lemma PrintableNotSpace(c: char)
    requires '!' <= c <= '~' || '\U{00A1}' <= c < '\U{1680}' || '\U{2060}' <= c < '\U{3000}' || '\U{3000}' < c
    ensures !IsSpace(c)
  {
  }

  /**
   * A string without upper-case ASCII letters and without whitespace at its ends is guessed
   * True exactly when it is a listed true word and False exactly when it is a listed false word.
   */
  lemma GuessPlainWord(w: string)
    requires IsLowerCase(w) && NoEdgeSpace(w)
    ensures GuessBoolean(Str(w)) == (if w in GuessTrue then Some(true) else if w in GuessFalse then Some(false) else None)
  {
    LowerOfLowerCase(w);
    StripNoEdgeSpace(w);
  }

  /** Every listed word is guessed as that word's truth value. */
  lemma GuessListedWord(w: string)
    requires w in GuessTrue || w in GuessFalse
    ensures GuessBoolean(Str(w)) == Some(w in GuessTrue)
  {
    PrintableNotSpace(w[0]);
    PrintableNotSpace(w[|w| - 1]);
    GuessPlainWord(w);
    GuessWordsDisjoint();
  }

  /** `int(x)` of a float: truncation toward zero. */
  function Truncate(x: real): (r: int)
    ensures x >= 0.0 ==> r == x.Floor
    ensures x < 0.0 ==> r == -((-x).Floor)
  {
    if x >= 0.0 then x.Floor else -((-x).Floor)
  }

  /** The words that make `extract_number` read zero. */
  const NoneWords: seq<string> := ["없음", "없", "-", "해당없음"]

  /** `extract_number` (the field name and the context text are not used by the source). */
  function ExtractNumber(raw: Value): (r: (Option<int>, Confidence))
    ensures raw == Null ==> r == (None, Low)
    ensures raw.Int? ==> r == (Some(raw.i), High)
    ensures raw.Num? ==> r.1 == High && r.0.Some?
    ensures r.0.None? <==> r.1 == Low
    ensures r.1 == Medium ==> !IsNumber(raw) && r.0.Some? && r.0.value >= 0
  {
    if raw == Null then (None, Low)
    else if raw.Bool? then (Some(if raw.b then 1 else 0), High)
    else if raw.Int? then (Some(raw.i), High)
    else if raw.Num? then (Some(Truncate(raw.x)), High)
    else
      var text := Render(raw);
      var runs := DigitRuns(text);
      if runs != [] then (Some(NatOf(runs[0])), Medium)
      else if ContainsAny(Lower(text), NoneWords) then (Some(0), Medium)
      else (None, Low)
  }

  lemma {:induction false} TakeWhileAll(s: string, cls: set<char>)
    requires forall i :: 0 <= i < |s| ==> s[i] in cls
    ensures TakeWhile(s, cls) == s
  {
    if s != [] {
      TakeWhileAll(s[1..], cls);
    }
  }

  /** A count written as plain digits is read back as that count, with medium confidence. */
  lemma ExtractNumberOfDigits(n: nat)
    ensures ExtractNumber(Str(NatToString(n))) == (Some(n as int), Medium)
  {
    var s := NatToString(n);
    assert IsDigit(s[0]);
    TakeWhileAll(s, {'0', '1', '2', '3', '4', '5', '6', '7', '8', '9'});
    assert s[|s|..] == [];
    assert DigitRuns(s) == [s];
    NatToStringRoundTrip(n);
  }

  /** `_interpret_matched_value`: the matched text is read through the pattern's word lists. */
  function Interpret(matched: string, p: ExtractionPattern): (r: Option<bool>)
    ensures r == Some(true) <==> (AgreesWithAny(Strip(Lower(matched)), p.trueValues) || (
      !AgreesWithAny(Strip(Lower(matched)), p.falseValues) && FirstNumberPositive(matched)))
    ensures r == Some(false) <==> (!AgreesWithAny(Strip(Lower(matched)), p.trueValues)
      && AgreesWithAny(Strip(Lower(matched)), p.falseValues))
  {
    var m := Strip(Lower(matched));
    if AgreesWithAny(m, p.trueValues) then Some(true)
    else if AgreesWithAny(m, p.falseValues) then Some(false)
    else if FirstNumberPositive(matched) then Some(true)
    else None
  }

  /** `val.lower() in m or m in val.lower()` for some listed value. */
  predicate AgreesWithAny(m: string, values: seq<string>)
  {
    exists k :: 0 <= k < |values| && (Contains(m, Lower(values[k])) || Contains(Lower(values[k]), m))
  }

  /** `re.search(r'\d+', matched)` finds a number greater than zero. */
  predicate FirstNumberPositive(matched: string)
  {
    var runs := DigitRuns(matched);
    runs != [] && NatOf(runs[0]) > 0
  }

  /** A matched number above zero with no listed word nearby reads as present. */
  lemma InterpretNumber(matched: string, p: ExtractionPattern)
    requires !AgreesWithAny(Strip(Lower(matched)), p.trueValues + p.falseValues)
    requires FirstNumberPositive(matched)
    ensures Interpret(matched, p) == Some(true)
  {
    NoAgreementSplits(Strip(Lower(matched)), p.trueValues, p.falseValues);
  }

  /** No value of a joined list agrees with `m` only when none of either part does. */
  lemma NoAgreementSplits(m: string, a: seq<string>, b: seq<string>)
    requires !AgreesWithAny(m, a + b)
    ensures !AgreesWithAny(m, a) && !AgreesWithAny(m, b)
  {
    forall k | 0 <= k < |a|
      ensures (a + b)[k] == a[k]
    {
    }
    forall k | 0 <= k < |b|
      ensures (a + b)[|a| + k] == b[k]
    {
    }
  }

  // ================================================================== extract_boolean

  /** Index of the first listed value that, lower-cased, occurs in `v` lower-cased. */
  function FirstWord(values: seq<string>, v: string): (r: int)
    ensures -1 <= r < |values|
    ensures r >= 0 ==> Contains(Lower(v), Lower(values[r]))
    ensures r >= 0 ==> forall j :: 0 <= j < r ==> !Contains(Lower(v), Lower(values[j]))
    ensures r == -1 <==> forall j :: 0 <= j < |values| ==> !Contains(Lower(v), Lower(values[j]))
  {
    if values == [] then -1
    else if Contains(Lower(v), Lower(values[0])) then 0
    else
      var t := FirstWord(values[1..], v);
      assert forall j :: 1 <= j < |values| ==> values[j] == values[1..][j - 1];
      if t == -1 then -1 else t + 1
  }

  /**
   * The scan of one word list: the first listed value equal to `v` or occurring in it decides;
   * equal (ignoring case) is "high", occurring is "medium".
   */
  function WordScan(values: seq<string>, v: string): (r: Option<Confidence>)
    ensures r.None? <==> FirstWord(values, v) == -1
    ensures r.Some? ==> r.value != Low
  {
    var k := FirstWord(values, v);
    if k < 0 then None
    else if Lower(values[k]) == Lower(v) then Some(High)
    else Some(Medium)
  }

  /** `str_value.lower() == str(null_val).lower()` for some listed value other than None. */
  predicate NullHit(nulls: seq<Option<string>>, v: string)
  {
    exists k :: 0 <= k < |nulls| && nulls[k].Some? && Lower(v) == Lower(nulls[k].value)
  }

  /** `str(raw_value).strip() if raw_value is not None else ""` */
  function StrValue(raw: Value): string
  {
    if raw == Null then "" else Strip(Render(raw))
  }

  /** The context-pattern step and the final guess shared by both readers. */
  function FromContext(p: ExtractionPattern, raw: Value, context: Option<string>): (r: (Option<bool>, Confidence))
    ensures r.1 == Medium || r == (GuessBoolean(raw), Low)
  {
    if context.Some? && context.value != [] then
      match FirstMatch(p.patterns, context.value)
      case Some(m) => (Interpret(m, p), Medium)
      case None => (GuessBoolean(raw), Low)
    else (GuessBoolean(raw), Low)
  }

  /**
   * `extract_boolean` as written: for each true value in turn, equality gives (True, "high")
   * and containment (True, "medium"); then the same over the false values; then a null value
   * gives (None, "high"); then the first context pattern that matches; else a guess, "low".
   */
  function ExtractBoolean(db: map<string, ExtractionPattern>, fieldName: string, raw: Value, context: Option<string>)
    : (r: (Option<bool>, Confidence))
    ensures FieldKey(fieldName) !in db ==> r == (GuessBoolean(raw), Low)
    ensures r.1 == Low ==> r.0 == GuessBoolean(raw)
    ensures FieldKey(fieldName) in db && FirstWord(db[FieldKey(fieldName)].trueValues, StrValue(raw)) >= 0
      ==> r.0 == Some(true)
  {
    var key := FieldKey(fieldName);
    if key !in db then (GuessBoolean(raw), Low)
    else
      var p := db[key];
      var v := StrValue(raw);
      var t := WordScan(p.trueValues, v);
      if t.Some? then (Some(true), t.value)
      else
        var f := WordScan(p.falseValues, v);
        if f.Some? then (Some(false), f.value)
        else if NullHit(p.nullValues, v) then (None, High)
        else FromContext(p, raw, context)
  }

  /**
   * The true values are scanned before the false values: a value in which some true value
   * occurs is read as True, "high" exactly when the first such true value equals it.
   */
  lemma ExtractBooleanTrueFirst(db: map<string, ExtractionPattern>, fieldName: string, raw: Value, context: Option<string>, k: nat)
    requires FieldKey(fieldName) in db
    requires var p := db[FieldKey(fieldName)]; k < |p.trueValues| && Contains(Lower(StrValue(raw)), Lower(p.trueValues[k]))
    ensures var p := db[FieldKey(fieldName)]; var i := FirstWord(p.trueValues, StrValue(raw));
      0 <= i <= k
      && ExtractBoolean(db, fieldName, raw, context)
         == (Some(true), if Lower(p.trueValues[i]) == Lower(StrValue(raw)) then High else Medium)
  {
  }

  /**
   * A value read as False contains no true value, and contains the first false value that
   * occurs in it; "high" exactly when that value equals it.
   */
  lemma ExtractBooleanFalse(db: map<string, ExtractionPattern>, fieldName: string, raw: Value, context: Option<string>)
    requires FieldKey(fieldName) in db
    requires ExtractBoolean(db, fieldName, raw, context).1 != Low
    requires var p := db[FieldKey(fieldName)]; FirstWord(p.falseValues, StrValue(raw)) >= 0
    ensures var p := db[FieldKey(fieldName)]; var v := StrValue(raw);
      ExtractBoolean(db, fieldName, raw, context).0 == Some(false)
      <==> (forall j :: 0 <= j < |p.trueValues| ==> !Contains(Lower(v), Lower(p.trueValues[j])))
  {
  }

  /** A null-looking value that matches no word is read as None with high confidence. */
  lemma ExtractBooleanNull(db: map<string, ExtractionPattern>, fieldName: string, raw: Value, context: Option<string>)
    requires FieldKey(fieldName) in db
    requires var p := db[FieldKey(fieldName)]; var v := StrValue(raw);
      FirstWord(p.trueValues, v) == -1 && FirstWord(p.falseValues, v) == -1 && NullHit(p.nullValues, v)
    ensures ExtractBoolean(db, fieldName, raw, context) == (None, High)
  {
  }

  /** The seismic field name resolves to the default seismic pattern and its word lists. */
  lemma SeismicResolves(fieldName: string)
    requires fieldName == "seismic_design"
    ensures FieldKey(fieldName) in DefaultPatterns
    ensures DefaultPatterns[FieldKey(fieldName)].trueValues == SeismicTrue
    ensures DefaultPatterns[FieldKey(fieldName)].falseValues == SeismicFalse
  {
    SnakeKey(fieldName);
    SeismicDefault(fieldName);
  }

  /** The default patterns hold the seismic pattern under its key. */
  lemma SeismicDefault(key: string)
    requires key == "seismic_design"
    ensures key in DefaultPatterns && DefaultPatterns[key] == SeismicPattern
  {
  }

  /** A word of Hangul syllables is its own string value and its own lower-case form. */
  lemma HangulNotSpace(c: char)
    requires '가' <= c <= '힣'
    ensures !IsSpace(c)
  {
  }

  lemma HangulWord(v: string)
    requires v != [] && forall i :: 0 <= i < |v| ==> '가' <= v[i] <= '힣'
    ensures StrValue(Str(v)) == v && Lower(v) == v
  {
    HangulNotSpace(v[0]);
    HangulNotSpace(v[|v| - 1]);
    StripNoEdgeSpace(v);
    LowerOfLowerCase(v);
  }

  lemma NegativeWordsContain()
    ensures !Contains("해당없음", "적용") && Contains("해당없음", "해당") && Contains("미적용", "적용")
  {
    MissingChar("해당없음", "적용", 0);
    assert IsPrefix("해당", "해당없음");
    ContainsSelfConcat("미", "적용", "");
    assert "미" + "적용" + "" == "미적용";
  }

  /** A value whose first true word occurs in it without equalling it is read as True, "medium". */
  lemma TrueWordOccurs(db: map<string, ExtractionPattern>, fieldName: string, raw: Value, k: nat)
    requires FieldKey(fieldName) in db
    requires var p := db[FieldKey(fieldName)]; var v := StrValue(raw);
      FirstWord(p.trueValues, v) == k && Lower(p.trueValues[k]) != Lower(v)
    ensures ExtractBoolean(db, fieldName, raw, None) == (Some(true), Medium)
  {
  }

  /** The first word occurring in `v` is the k-th when it occurs and none before it does. */
  lemma FirstWordIs(values: seq<string>, v: string, k: nat)
    requires k < |values| && Contains(Lower(v), Lower(values[k]))
    requires forall j :: 0 <= j < k ==> !Contains(Lower(v), Lower(values[j]))
    ensures FirstWord(values, v) == k
  {
  }

  /** The first two seismic true words, "적용" and "해당", are their own lower case. */
  lemma SeismicTrueHead()
    ensures |SeismicTrue| >= 2 && SeismicTrue[0] == "적용" && SeismicTrue[1] == "해당"
    ensures Lower(SeismicTrue[0]) == SeismicTrue[0] && Lower(SeismicTrue[1]) == SeismicTrue[1]
  {
    HangulWord(SeismicTrue[0]);
    HangulWord(SeismicTrue[1]);
  }

  /** The first true word in "해당없음" is the second, "해당". */
  lemma NotApplicableFirstWord(v: string)
    requires Lower(v) == v && v == "해당없음"
    ensures FirstWord(SeismicTrue, v) == 1
  {
    SeismicTrueHead();
    NegativeWordsContain();
    FirstWordIs(SeismicTrue, v, 1);
  }

  /** "해당없음" contains the second true word "해당" and not the first, "적용". */
  lemma NotApplicableHitsSecondWord(v: string)
    requires v == "해당없음"
    ensures StrValue(Str(v)) == v
    ensures FirstWord(SeismicTrue, v) == 1 && Lower(SeismicTrue[1]) != Lower(v)
  {
    HangulWord(v);
    SeismicTrueHead();
    NotApplicableFirstWord(v);
  }

  /** "미적용" contains the first true word, "적용". */
  lemma NotAppliedHitsFirstWord(v: string)
    requires v == "미적용"
    ensures StrValue(Str(v)) == v
    ensures FirstWord(SeismicTrue, v) == 0 && Lower(SeismicTrue[0]) != Lower(v)
  {
    HangulWord(v);
    HangulWord("적용");
    NegativeWordsContain();
  }

  /** Under any patterns whose true values are the seismic ones, both negative words read as True. */
  lemma SeismicWordsReadAsTrue(db: map<string, ExtractionPattern>, fieldName: string, v: string)
    requires FieldKey(fieldName) in db && db[FieldKey(fieldName)].trueValues == SeismicTrue
    requires v == "해당없음" || v == "미적용"
    ensures ExtractBoolean(db, fieldName, Str(v), None) == (Some(true), Medium)
  {
    if v == "해당없음" {
      NotApplicableHitsSecondWord(v);
      TrueWordOccurs(db, fieldName, Str(v), 1);
    } else {
      NotAppliedHitsFirstWord(v);
      TrueWordOccurs(db, fieldName, Str(v), 0);
    }
  }

  /**
   * Against its own examples, the default seismic pattern reads "해당없음" ("not applicable")
   * and "미적용" ("not applied") as True: a true value ("해당", "적용") occurs in each, and
   * true values are scanned first.
   */
  lemma SeismicNegativesReadAsTrue(fieldName: string, v: string)
    requires fieldName == "seismic_design" && (v == "해당없음" || v == "미적용")
    ensures ExtractBoolean(DefaultPatterns, fieldName, Str(v), None) == (Some(true), Medium)
  {
    SeismicResolves(fieldName);
    SeismicWordsReadAsTrue(DefaultPatterns, fieldName, v);
  }

  /** The default seismic pattern's own third example reads "해당없음" as False. */
  lemma SeismicExampleSaysFalse()
    ensures SeismicPattern.examples[2]["raw"] == Str("내진설계적용여부: 해당없음")
    ensures SeismicPattern.examples[2]["value"] == Bool(false)
  {
  }

  /** Index of the first listed value equal to `v`, ignoring case. */
  function FirstEqual(values: seq<string>, v: string): (r: int)
    ensures -1 <= r < |values|
    ensures r >= 0 ==> Lower(values[r]) == Lower(v)
    ensures r == -1 <==> forall j :: 0 <= j < |values| ==> Lower(values[j]) != Lower(v)
  {
    if values == [] then -1
    else if Lower(values[0]) == Lower(v) then 0
    else
      var t := FirstEqual(values[1..], v);
      assert forall j :: 1 <= j < |values| ==> values[j] == values[1..][j - 1];
      if t == -1 then -1 else t + 1
  }

  /**
   * `extract_boolean` corrected: a value equal to a listed true or false value is decided by
   * that value, with high confidence, before any containment test; the rest is as written.
   */
  function ExtractBooleanFixed(db: map<string, ExtractionPattern>, fieldName: string, raw: Value, context: Option<string>)
    : (r: (Option<bool>, Confidence))
    ensures r.1 == Low ==> r.0 == GuessBoolean(raw)
    ensures FieldKey(fieldName) !in db ==> r == ExtractBoolean(db, fieldName, raw, context)
    ensures FieldKey(fieldName) in db
      && (forall k :: 0 <= k < |db[FieldKey(fieldName)].trueValues|
            ==> Lower(db[FieldKey(fieldName)].trueValues[k]) != Lower(StrValue(raw)))
      && (forall k :: 0 <= k < |db[FieldKey(fieldName)].falseValues|
            ==> Lower(db[FieldKey(fieldName)].falseValues[k]) != Lower(StrValue(raw)))
      ==> r == ExtractBoolean(db, fieldName, raw, context)
  {
    var key := FieldKey(fieldName);
    if key in db && FirstEqual(db[key].trueValues, StrValue(raw)) >= 0 then (Some(true), High)
    else if key in db && FirstEqual(db[key].falseValues, StrValue(raw)) >= 0 then (Some(false), High)
    else ExtractBoolean(db, fieldName, raw, context)
  }

  /**
   * With the correction, a value equal to a listed false value and to no listed true value is
   * read as False, and one equal to a listed true value as True, both with high confidence.
   */
  lemma ExactWordDecides(db: map<string, ExtractionPattern>, fieldName: string, raw: Value, context: Option<string>)
    requires FieldKey(fieldName) in db
    ensures var p := db[FieldKey(fieldName)]; var v := StrValue(raw);
      (exists k :: 0 <= k < |p.trueValues| && Lower(p.trueValues[k]) == Lower(v))
      ==> ExtractBooleanFixed(db, fieldName, raw, context) == (Some(true), High)
    ensures var p := db[FieldKey(fieldName)]; var v := StrValue(raw);
      (forall k :: 0 <= k < |p.trueValues| ==> Lower(p.trueValues[k]) != Lower(v))
      && (exists k :: 0 <= k < |p.falseValues| && Lower(p.falseValues[k]) == Lower(v))
      ==> ExtractBooleanFixed(db, fieldName, raw, context) == (Some(false), High)
  {
    var p := db[FieldKey(fieldName)];
    var v := StrValue(raw);
    var t := FirstEqual(p.trueValues, v);
    var f := FirstEqual(p.falseValues, v);
    assert t >= 0 ==> ExtractBooleanFixed(db, fieldName, raw, context) == (Some(true), High);
    assert t < 0 && f >= 0 ==> ExtractBooleanFixed(db, fieldName, raw, context) == (Some(false), High);
  }

  /** Each negative seismic word is one of the seismic false values. */
  lemma SeismicNegativeWord(v: string) returns (k: nat)
    requires v == "해당없음" || v == "미적용"
    ensures k < |SeismicFalse| && SeismicFalse[k] == v
  {
    k := if v == "미적용" then 0 else 1;
  }

  /** Under any patterns with the seismic word lists, the corrected reader takes both negative words as False. */
  lemma SeismicWordsFixed(db: map<string, ExtractionPattern>, fieldName: string, v: string)
    requires FieldKey(fieldName) in db
    requires db[FieldKey(fieldName)].trueValues == SeismicTrue && db[FieldKey(fieldName)].falseValues == SeismicFalse
    requires v == "해당없음" || v == "미적용"
    ensures ExtractBooleanFixed(db, fieldName, Str(v), None) == (Some(false), High)
  {
    if v == "해당없음" {
      NotApplicableHitsSecondWord(v);
    } else {
      NotAppliedHitsFirstWord(v);
    }
    var k := SeismicNegativeWord(v);
    assert Lower(SeismicFalse[k]) == Lower(v);
    NotSeismicTrueWord(v);
    ExactWordDecides(db, fieldName, Str(v), None);
  }

  /** With the correction, "해당없음" and "미적용" are read as False, as the pattern's examples say. */
  lemma SeismicNegativesFixed(fieldName: string, v: string)
    requires fieldName == "seismic_design" && (v == "해당없음" || v == "미적용")
    ensures ExtractBooleanFixed(DefaultPatterns, fieldName, Str(v), None) == (Some(false), High)
  {
    SeismicResolves(fieldName);
    SeismicWordsFixed(DefaultPatterns, fieldName, v);
  }

  lemma NotSeismicTrueWord(v: string)
    requires v == "해당없음" || v == "미적용"
    ensures forall k :: 0 <= k < |SeismicTrue| ==> Lower(SeismicTrue[k]) != Lower(v)
  {
    LowerOfLowerCase(v);
    forall k | 0 <= k < |SeismicTrue|
      ensures Lower(SeismicTrue[k]) != v
    {
      assert |Lower(SeismicTrue[k])| != |v| || Lower(SeismicTrue[k])[0] != v[0];
    }
  }

  // ================================================================== process

  /** One entry of `corrections_made`. */
  datatype Correction = Correction(field: string, original: Value, corrected: Value, confidence: Confidence)

  /** The corrected ledger record and the corrections made so far. */
  datatype Corrected = Corrected(ledger: Dict, log: seq<Correction>)

  function BoolValue(b: Option<bool>): Value
  {
    if b.Some? then Bool(b.value) else Null
  }

  function IntValue(n: Option<int>): Value
  {
    if n.Some? then Int(n.value) else Null
  }

  /** Writes `corrected` into `field` and logs it, when it differs (by Python `!=`) and `apply` holds. */
  function Apply(st: Corrected, field: string, corrected: Value, confidence: Confidence, apply: bool): (r: Corrected)
    requires field in st.ledger
    ensures r.ledger.Keys == st.ledger.Keys
    ensures forall k :: k in st.ledger && k != field ==> r.ledger[k] == st.ledger[k]
  {
    var original := st.ledger[field];
    if apply && !PyEq(corrected, original) then
      Corrected(st.ledger[field := corrected], st.log + [Correction(field, original, corrected, confidence)])
    else st
  }

  /** The seismic-design and elevator corrections: applied only when the confidence is not "low". */
  function CorrectFlag(db: map<string, ExtractionPattern>, st: Corrected, field: string, rawText: Option<string>): (r: Corrected)
    ensures r.ledger.Keys == st.ledger.Keys
    ensures forall k :: k in st.ledger && k != field ==> r.ledger[k] == st.ledger[k]
  {
    if field !in st.ledger then st
    else
      var e := ExtractBooleanFixed(db, field, st.ledger[field], rawText);
      Apply(st, field, BoolValue(e.0), e.1, e.1 != Low)
  }

  /** Raw text that does not mention "지하" (basement). */
  predicate NoBasementMention(rawText: Option<string>)
  {
    rawText.Some? && rawText.value != [] && !Contains(rawText.value, "지하")
  }

  /** The basement correction: forced to False by text without "지하", applied whatever the confidence. */
  function CorrectBasement(db: map<string, ExtractionPattern>, st: Corrected, rawText: Option<string>): (r: Corrected)
    ensures r.ledger.Keys == st.ledger.Keys
    ensures forall k :: k in st.ledger && k != "has_basement" ==> r.ledger[k] == st.ledger[k]
  {
    if "has_basement" !in st.ledger then st
    else
      var e := ExtractBooleanFixed(db, "has_basement", st.ledger["has_basement"], rawText);
      var e' := if NoBasementMention(rawText) then (Some(false), High) else e;
      Apply(st, "has_basement", BoolValue(e'.0), e'.1, true)
  }

  /** A parking count correction: applied only when the confidence is not "low". */
  function CorrectCount(st: Corrected, field: string): (r: Corrected)
    ensures r.ledger.Keys == st.ledger.Keys
    ensures forall k :: k in st.ledger && k != field ==> r.ledger[k] == st.ledger[k]
  {
    if field !in st.ledger then st
    else
      var e := ExtractNumber(st.ledger[field]);
      Apply(st, field, IntValue(e.0), e.1, e.1 != Low)
  }

  const ParkingFields: seq<string> := ["outdoor_parking", "indoor_parking", "mechanical_parking"]

  /** The parking loop over `fields`, in order. */
  function CorrectCounts(st: Corrected, fields: seq<string>): (r: Corrected)
    ensures r.ledger.Keys == st.ledger.Keys
    ensures forall k :: k in st.ledger && k !in fields ==> r.ledger[k] == st.ledger[k]
  {
    if fields == [] then st
    else CorrectCount(CorrectCounts(st, fields[..|fields| - 1]), fields[|fields| - 1])
  }

  /** The boolean corrections of `process`, in source order. */
  function CorrectFlags(db: map<string, ExtractionPattern>, bld: Dict, rawText: Option<string>): Corrected
  {
    var st1 := CorrectFlag(db, Corrected(bld, []), "seismic_design", rawText);
    var st2 := CorrectBasement(db, st1, rawText);
    CorrectFlag(db, st2, "has_elevator", rawText)
  }

  /** `process(result, raw_text)`: the corrected result and `corrections_made`. */
  function PostProcessed(db: map<string, ExtractionPattern>, result: Dict, rawText: Option<string>): (Dict, seq<Correction>)
  {
    if "building_ledger_title" in result && result["building_ledger_title"].Obj? then
      var st := CorrectCounts(CorrectFlags(db, result["building_ledger_title"].fields, rawText), ParkingFields);
      (result["building_ledger_title" := Obj(st.ledger)], st.log)
    else (result, [])
  }

  /** The fields `process` may correct. */
  const CorrectedFields: set<string> := {"seismic_design", "has_basement", "has_elevator",
    "outdoor_parking", "indoor_parking", "mechanical_parking"}

  /**
   * `process` changes nothing outside the building-ledger record, keeps that record's keys,
   * and changes no field of it other than the six it corrects.
   */
  lemma PostProcessedFrame(db: map<string, ExtractionPattern>, result: Dict, rawText: Option<string>)
    ensures var (r, _) := PostProcessed(db, result, rawText);
      r.Keys == result.Keys && forall k :: k in result && k != "building_ledger_title" ==> r[k] == result[k]
    ensures var (r, _) := PostProcessed(db, result, rawText);
      "building_ledger_title" in result && result["building_ledger_title"].Obj? ==>
        r["building_ledger_title"].Obj?
        && r["building_ledger_title"].fields.Keys == result["building_ledger_title"].fields.Keys
        && forall k :: k in result["building_ledger_title"].fields && k !in CorrectedFields ==>
             r["building_ledger_title"].fields[k] == result["building_ledger_title"].fields[k]
  {
  }

  /** Text that never mentions "지하" makes an existing basement flag False. */
  lemma BasementForcedFalse(db: map<string, ExtractionPattern>, result: Dict, rawText: Option<string>)
    requires "building_ledger_title" in result && result["building_ledger_title"].Obj?
    requires "has_basement" in result["building_ledger_title"].fields
    requires NoBasementMention(rawText)
    ensures PyEq(PostProcessed(db, result, rawText).0["building_ledger_title"].fields["has_basement"], Bool(false))
  {
    var bld := result["building_ledger_title"].fields;
    var st1 := CorrectFlag(db, Corrected(bld, []), "seismic_design", rawText);
    var st2 := CorrectBasement(db, st1, rawText);
    assert PyEq(st2.ledger["has_basement"], Bool(false));
    var st3 := CorrectFlag(db, st2, "has_elevator", rawText);
    assert st3.ledger["has_basement"] == st2.ledger["has_basement"];
  }

  /**
   * A gated correction is written only with confidence other than "low", and then it is
   * logged with that confidence and differs from the original by Python `!=`.
   */
  lemma FlagCorrectionGated(db: map<string, ExtractionPattern>, st: Corrected, field: string, rawText: Option<string>)
    requires field in st.ledger
    ensures var r := CorrectFlag(db, st, field, rawText);
      var e := ExtractBooleanFixed(db, field, st.ledger[field], rawText);
      r != st ==> (e.1 != Low && r.ledger == st.ledger[field := BoolValue(e.0)]
        && !PyEq(BoolValue(e.0), st.ledger[field])
        && r.log == st.log + [Correction(field, st.ledger[field], BoolValue(e.0), e.1)])
    ensures var r := CorrectFlag(db, st, field, rawText);
      var e := ExtractBooleanFixed(db, field, st.ledger[field], rawText);
      e.1 != Low && !PyEq(BoolValue(e.0), st.ledger[field]) ==> r.ledger[field] == BoolValue(e.0)
  {
  }

  /** Likewise for a parking count: written only with confidence other than "low", and logged. */
  lemma CountCorrectionGated(st: Corrected, field: string)
    requires field in st.ledger
    ensures var r := CorrectCount(st, field); var e := ExtractNumber(st.ledger[field]);
      r != st ==> (e.1 != Low && r.ledger == st.ledger[field := IntValue(e.0)]
        && r.log == st.log + [Correction(field, st.ledger[field], IntValue(e.0), e.1)])
  {
  }

  /** The log grows by one entry per field whose value `process` changed, and by nothing else. */
  lemma {:induction false} CountsLogged(st: Corrected, fields: seq<string>)
    ensures var r := CorrectCounts(st, fields);
      |st.log| <= |r.log| <= |st.log| + |fields| && r.log[..|st.log|] == st.log
    ensures var r := CorrectCounts(st, fields);
      forall j :: |st.log| <= j < |r.log| ==> r.log[j].field in fields && r.log[j].confidence != Low
  {
    if fields != [] {
      var init := fields[..|fields| - 1];
      var last := fields[|fields| - 1];
      CountsLogged(st, init);
      var mid := CorrectCounts(st, init);
      var r := CorrectCount(mid, last);
      if last in mid.ledger && r != mid {
        CountCorrectionGated(mid, last);
        assert r.log == mid.log + [r.log[|r.log| - 1]];
        assert r.log[..|st.log|] == mid.log[..|st.log|];
      }
      forall j | |st.log| <= j < |r.log|
        ensures r.log[j].field in fields && r.log[j].confidence != Low
      {
        if j < |mid.log| {
          assert r.log[j] == mid.log[j];
          assert mid.log[j].field in init;
        }
      }
    }
  }

  // ================================================================== the classes

  /** `UserFeedback`; the timestamp is the caller's clock reading. */
  datatype UserFeedback = UserFeedback(
    timestamp: string,
    fieldName: string,
    aiValue: Value,
    correctValue: Value,
    documentType: string,
    rawText: Option<string>)

  /** `ErrorLog` */
  datatype ErrorLog = ErrorLog(
    timestamp: string,
    fieldName: string,
    errorType: string,
    aiValue: Value,
    expectedValue: Value,
    context: Option<string>)

  /** `feedback.raw_text` is a non-empty string. */
  predicate HasRawText(fb: UserFeedback)
  {
    fb.rawText.Some? && fb.rawText.value != []
  }

  /** `_learn_from_feedback` on one pattern record. */
  function LearnedPattern(p: ExtractionPattern, fb: UserFeedback): (r: ExtractionPattern)
    ensures r.patterns == p.patterns && r.nullValues == p.nullValues
  {
    var p1 :=
      if IsTrue(fb.correctValue) then
        (if HasRawText(fb) && fb.rawText.value !in p.trueValues then p.(trueValues := p.trueValues + [fb.rawText.value]) else p)
      else if IsFalse(fb.correctValue) then
        (if HasRawText(fb) && fb.rawText.value !in p.falseValues then p.(falseValues := p.falseValues + [fb.rawText.value]) else p)
      else p;
    if HasRawText(fb) then
      p1.(examples := p1.examples + [map["raw" := Str(fb.rawText.value), "value" := fb.correctValue, "ai_was" := fb.aiValue]])
    else p1
  }

  /** `_learn_from_feedback`: the pattern map after learning (a new field gets an empty pattern first). */
  function Learned(patterns: map<string, ExtractionPattern>, fb: UserFeedback): map<string, ExtractionPattern>
  {
    var key := FieldKey(fb.fieldName);
    var p := if key in patterns then patterns[key]
             else ExtractionPattern(fb.fieldName, fb.documentType, [], [], [], [], []);
    patterns[key := LearnedPattern(p, fb)]
  }

  /**
   * Learning touches only the field's own pattern; a True correction with raw text adds that text
   * to the true values once, a False one to the false values once, and nothing else is added.
   */
  lemma LearnedValues(patterns: map<string, ExtractionPattern>, fb: UserFeedback)
    ensures var key := FieldKey(fb.fieldName); var r := Learned(patterns, fb);
      r.Keys == patterns.Keys + {key} && forall k :: k in patterns && k != key ==> r[k] == patterns[k]
    ensures var key := FieldKey(fb.fieldName); var r := Learned(patterns, fb);
      var before := if key in patterns then patterns[key].trueValues else [];
      (IsTrue(fb.correctValue) && HasRawText(fb) ==> fb.rawText.value in r[key].trueValues)
      && (IsTrue(fb.correctValue) && HasRawText(fb) && fb.rawText.value !in before
          ==> r[key].trueValues == before + [fb.rawText.value])
      && (!(IsTrue(fb.correctValue) && HasRawText(fb) && fb.rawText.value !in before) ==> r[key].trueValues == before)
    ensures var key := FieldKey(fb.fieldName); var r := Learned(patterns, fb);
      var before := if key in patterns then patterns[key].falseValues else [];
      (IsFalse(fb.correctValue) && HasRawText(fb) ==> fb.rawText.value in r[key].falseValues)
      && (!(IsFalse(fb.correctValue) && HasRawText(fb) && fb.rawText.value !in before) ==> r[key].falseValues == before)
  {
  }

  /** Learning never repeats a word: lists without repeats stay without repeats. */
  lemma LearnedKeepsDistinct(p: ExtractionPattern, fb: UserFeedback)
    requires NoDuplicates(p.trueValues) && NoDuplicates(p.falseValues)
    ensures NoDuplicates(LearnedPattern(p, fb).trueValues) && NoDuplicates(LearnedPattern(p, fb).falseValues)
  {
    var r := LearnedPattern(p, fb);
    if r.trueValues != p.trueValues {
      assert r.trueValues == p.trueValues + [fb.rawText.value];
    }
    if r.falseValues != p.falseValues {
      assert r.falseValues == p.falseValues + [fb.rawText.value];
    }
  }

  /** `LearningDatabase` without its files: the patterns, the feedback history and the error log. */
  class LearningDatabase {
    var patterns: map<string, ExtractionPattern>
    var feedbackHistory: seq<UserFeedback>
    var errorLogs: seq<ErrorLog>

    /** A database with no saved files: the default patterns and empty histories. */
    constructor()
      ensures patterns == DefaultPatterns && feedbackHistory == [] && errorLogs == []
    {
      patterns := DefaultPatterns;
      feedbackHistory := [];
      errorLogs := [];
    }

    /** `_learn_from_feedback` (saving the patterns is not modelled). */
    method LearnFromFeedback(fb: UserFeedback)
      modifies this`patterns
      ensures patterns == Learned(old(patterns), fb)
    {
      var key := FieldKey(fb.fieldName);
      if key !in patterns {
        patterns := patterns[key := ExtractionPattern(fb.fieldName, fb.documentType, [], [], [], [], [])];
      }
      var pattern := patterns[key];
      if IsTrue(fb.correctValue) {
        if HasRawText(fb) && fb.rawText.value !in pattern.trueValues {
          pattern := pattern.(trueValues := pattern.trueValues + [fb.rawText.value]);
        }
      } else if IsFalse(fb.correctValue) {
        if HasRawText(fb) && fb.rawText.value !in pattern.falseValues {
          pattern := pattern.(falseValues := pattern.falseValues + [fb.rawText.value]);
        }
      }
      if HasRawText(fb) {
        pattern := pattern.(examples := pattern.examples
          + [map["raw" := Str(fb.rawText.value), "value" := fb.correctValue, "ai_was" := fb.aiValue]]);
      }
      patterns := patterns[key := pattern];
    }

    /** `add_feedback`: records the feedback, then learns from it. */
    method AddFeedback(fieldName: string, aiValue: Value, correctValue: Value, documentType: string,
                       rawText: Option<string>, now: string)
      modifies this`patterns, this`feedbackHistory
      ensures var fb := UserFeedback(now, fieldName, aiValue, correctValue, documentType, rawText);
        feedbackHistory == old(feedbackHistory) + [fb] && patterns == Learned(old(patterns), fb)
    {
      var fb := UserFeedback(now, fieldName, aiValue, correctValue, documentType, rawText);
      feedbackHistory := feedbackHistory + [fb];
      LearnFromFeedback(fb);
    }

    /** `log_error` */
    method LogError(fieldName: string, errorType: string, aiValue: Value, expectedValue: Value,
                    context: Option<string>, now: string)
      modifies this`errorLogs
      ensures errorLogs == old(errorLogs) + [ErrorLog(now, fieldName, errorType, aiValue, expectedValue, context)]
    {
      errorLogs := errorLogs + [ErrorLog(now, fieldName, errorType, aiValue, expectedValue, context)];
    }
  }

  /** `ResultPostProcessor`: a learning database and the corrections of the last `process`. */
  class ResultPostProcessor {
    const learningDb: LearningDatabase
    var correctionsMade: seq<Correction>

    constructor()
      ensures fresh(learningDb) && learningDb.patterns == DefaultPatterns && correctionsMade == []
    {
      learningDb := new LearningDatabase();
      correctionsMade := [];
    }

    /**
     * `process(result, raw_text)`: the result with its building-ledger record corrected; the
     * corrections of this call alone are in `correctionsMade`.
     */
    method Process(result: Dict, rawText: Option<string>) returns (r: Dict)
      modifies this`correctionsMade
      ensures (r, correctionsMade) == PostProcessed(learningDb.patterns, result, rawText)
    {
      correctionsMade := [];
      r := result;
      if "building_ledger_title" in result && result["building_ledger_title"].Obj? {
        var st := CorrectFlags(learningDb.patterns, result["building_ledger_title"].fields, rawText);
        var i := 0;
        while i < |ParkingFields|
          invariant 0 <= i <= |ParkingFields|
          invariant st == CorrectCounts(CorrectFlags(learningDb.patterns, result["building_ledger_title"].fields, rawText), ParkingFields[..i])
        {
          st := CorrectCount(st, ParkingFields[i]);
          assert ParkingFields[..i + 1][..i] == ParkingFields[..i];
          i := i + 1;
        }
        assert ParkingFields[..|ParkingFields|] == ParkingFields;
        r := result["building_ledger_title" := Obj(st.ledger)];
        correctionsMade := st.log;
      }
    }

    /** `submit_user_correction`: feedback for learning and an error-log entry. */
    method SubmitUserCorrection(fieldName: string, aiValue: Value, correctValue: Value, documentType: string,
                                rawText: Option<string>, now: string)
      modifies learningDb`patterns, learningDb`feedbackHistory, learningDb`errorLogs
      ensures var fb := UserFeedback(now, fieldName, aiValue, correctValue, documentType, rawText);
        learningDb.feedbackHistory == old(learningDb.feedbackHistory) + [fb]
        && learningDb.patterns == Learned(old(learningDb.patterns), fb)
        && learningDb.errorLogs == old(learningDb.errorLogs)
           + [ErrorLog(now, fieldName, "user_correction", aiValue, correctValue, rawText)]
    {
      learningDb.AddFeedback(fieldName, aiValue, correctValue, documentType, rawText, now);
      learningDb.LogError(fieldName, "user_correction", aiValue, correctValue, rawText, now);
    }
  }
}
