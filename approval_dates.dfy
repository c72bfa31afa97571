/**
 * `_parse_approval_date_to_ymd`: the tolerant reader for the building-use approval date
 * (사용승인일). The two validators carry identical copies of it.
 *
 * The order of attempts is: eight strptime formats on the first 24 characters, then the
 * pattern `(\d{4})\s*년\s*(\d{1,2})\s*월\s*(\d{1,2})\s*일` at the start of the text, then
 * the digits of the text read as YYYYMMDD, YYMMDD (20YY) or a seven-digit YYYYMDD/YYYYMMD.
 */
module ApprovalDates {
  import opened Wrappers
  import opened Text
  import opened Dates

  /** The strptime formats tried first, in order. */
  const ApprovalFormats: seq<Format> :=
    [FmtDash, FmtDot, FmtSlash, FmtDotSpaced, FmtShortDash, FmtShortDot, FmtKoreanSpaced, FmtKorean]

  // ------------------------------------------------------------------ pattern scanner

  /** Length taken by a greedy `\d{1,2}` at the start of `s` (0 when no digit). */
  function DigitRun12(s: string): (k: nat)
    ensures k <= 2 && k <= |s| && AllDigits(s[..k])
    ensures k == 0 <==> (s == [] || !IsDigit(s[0]))
  {
    if |s| >= 2 && IsDigit(s[0]) && IsDigit(s[1]) then 2
    else if |s| >= 1 && IsDigit(s[0]) then 1
    else 0
  }

  /** `s` with its leading whitespace run removed (`\s*`). */
  function SkipSpace(s: string): (r: string)
    ensures |r| <= |s|
    ensures r == [] || !IsSpace(r[0])
  {
    s[SpaceRun(s)..]
  }

  /**
   * `re.match` of `(\d{4})\s*[sep1]\s*(\d{1,2})\s*[sep2]\s*(\d{1,2})` followed, when
   * `tail` is given, by `\s*tail`. After the fixed four digits every quantifier is
   * followed by a character it cannot consume, so the greedy choice is the regex's
   * first successful one.
   */
  function ScanYmd(s: string, sep1: set<char>, sep2: set<char>, tail: Option<char>): (r: Option<Date>)
    ensures r.Some? ==> 0 <= r.value.year <= 9999 && 0 <= r.value.month <= 99 && 0 <= r.value.day <= 99
  {
    if !(|s| >= 4 && AllDigits(s[..4])) then None
    else
      NatOfBound(s[..4]);
      var y := NatOf(s[..4]);
      var s1 := SkipSpace(s[4..]);
      if s1 == [] || s1[0] !in sep1 then None
      else ScanMonthDay(y, SkipSpace(s1[1..]), sep2, tail)
  }

  /** The month, the second separator and the day of `ScanYmd`, after the year `y`. */
  function ScanMonthDay(y: nat, s2: string, sep2: set<char>, tail: Option<char>): (r: Option<Date>)
    requires y <= 9999
    ensures r.Some? ==> r.value.year == y && 0 <= r.value.month <= 99 && 0 <= r.value.day <= 99
  {
    var k1 := DigitRun12(s2);
    if k1 == 0 then None
    else
      NatOfBound(s2[..k1]);
      var mo := NatOf(s2[..k1]);
      var s3 := SkipSpace(s2[k1..]);
      if s3 == [] || s3[0] !in sep2 then None
      else ScanDay(y, mo, SkipSpace(s3[1..]), tail)
  }

  /** The day of `ScanYmd` and the closing character, if any, after the year and the month. */
  function ScanDay(y: nat, mo: nat, s4: string, tail: Option<char>): (r: Option<Date>)
    requires mo <= 99
    ensures r.Some? ==> r.value.year == y && r.value.month == mo && 0 <= r.value.day <= 99
  {
    var k2 := DigitRun12(s4);
    if k2 == 0 then None
    else
      NatOfBound(s4[..k2]);
      var day := NatOf(s4[..k2]);
      if tail.None? then Some(Date(y, mo, day))
      else
        var s5 := SkipSpace(s4[k2..]);
        if s5 != [] && s5[0] == tail.value then Some(Date(y, mo, day)) else None
  }

  /** `(\d{4})\s*년\s*(\d{1,2})\s*월\s*(\d{1,2})\s*일` */
  function KoreanPattern(s: string): Option<Date>
  {
    ScanYmd(s, {'년'}, {'월'}, Some('일'))
  }

  predicate InRange(mo: int, day: int) { 1 <= mo <= 12 && 1 <= day <= 31 }

  // ------------------------------------------------------------------ digit paths

  /** The YYYYMMDD / YYMMDD / YYYYMDD readings of the digit string `d`. */
  function DigitsReading(d: string): (r: Option<Date>)
    requires AllDigits(d)
    ensures r.Some? ==> InRange(r.value.month, r.value.day)
  {
    if |d| >= 8 && InRange(NatOf(d[4..6]), NatOf(d[6..8])) then
      Some(Date(NatOf(d[..4]), NatOf(d[4..6]), NatOf(d[6..8])))
    else if |d| == 6 && InRange(NatOf(d[2..4]), NatOf(d[4..6])) then
      Some(Date(NatOf("20" + d[..2]), NatOf(d[2..4]), NatOf(d[4..6])))
    else if |d| == 7 then
      var y := NatOf(d[..4]);
      var mo := if d[4] == '0' then NatOf(d[4..6]) else NatOf(d[4..5]);
      var day := if d[4] == '0' then NatOf(d[6..7]) else NatOf(d[5..7]);
      if InRange(mo, day) then Some(Date(y, mo, day)) else None
    else None
  }

  /** The first 24 characters of the stripped text, stripped again (`raw[:24].strip()`). */
  function Head24(raw: string): string
  {
    Strip(raw[..if |raw| < 24 then |raw| else 24])
  }

  /** The attempts after strptime: the Korean pattern with its range check, then the digits. */
  function Fallback(raw: string): (r: Option<Date>)
    ensures r.Some? ==> InRange(r.value.month, r.value.day)
  {
    var m := KoreanPattern(raw);
    if m.Some? && InRange(m.value.month, m.value.day) then m
    else DigitsReading(Digits(raw))
  }

  /** `EnhancedValidator._parse_approval_date_to_ymd(s)` */
  function ParseApprovalYmd(s: Option<string>): (r: Option<Date>)
    ensures r.Some? ==> InRange(r.value.month, r.value.day)
    ensures s.None? || Strip(s.value) == [] ==> r.None?
  {
    if s.None? || s.value == [] then None
    else
      var raw := Strip(s.value);
      if raw == [] then None
      else
        var p := FirstParse(Head24(raw), ApprovalFormats);
        if p.Some? then p else Fallback(raw)
  }

  // ------------------------------------------------------------------ laws

  /** A six-digit string is read as 20YY-MM-DD when its month and day are in range. */
  lemma SixDigitsAreTwentyYY(s: string)
    requires |s| == 6 && AllDigits(s)
    requires InRange(NatOf(s[2..4]), NatOf(s[4..6]))
    ensures ParseApprovalYmd(Some(s)) == Some(Date(2000 + NatOf(s[..2]), NatOf(s[2..4]), NatOf(s[4..6])))
  {
    AllDigitsStrip(s);
    assert s[..|s|] == s;
    NoFormatReadsDigits(s);
    assert KoreanPattern(s).None? by {
      assert SpaceRun(s[4..]) == 0;
    }
    DigitsOfDigits(s);
    TwentyPrefix(s[..2]);
  }

  /** An eight-digit string is read as YYYY-MM-DD when its month and day are in range. */
  lemma EightDigitsAreYmd(s: string)
    requires |s| == 8 && AllDigits(s)
    requires InRange(NatOf(s[4..6]), NatOf(s[6..8]))
    ensures ParseApprovalYmd(Some(s)) == Some(Date(NatOf(s[..4]), NatOf(s[4..6]), NatOf(s[6..8])))
  {
    AllDigitsStrip(s);
    assert s[..|s|] == s;
    NoFormatReadsDigits(s);
    assert KoreanPattern(s).None? by {
      assert SpaceRun(s[4..]) == 0;
    }
    DigitsOfDigits(s);
  }

  /** An ISO date printed by `str(date)` is read back as the same (y, m, d). */
  lemma IsoIsReadBack(d: Date)
    requires ValidDate(d) && 1000 <= d.year
    ensures ParseApprovalYmd(Some(Iso(d))) == Some(d)
  {
    var s := Iso(d);
    IsoRoundTrip(d);
    AllDigitsStripFormatted(d);
    assert s[..|s|] == s;
  }

  lemma AllDigitsStrip(s: string)
    requires AllDigits(s)
    ensures Strip(s) == s
  {
    if s != [] {
      assert IsDigit(s[0]) && IsDigit(s[|s| - 1]);
    }
    StripNoEdgeSpace(s);
  }

  lemma AllDigitsStripFormatted(d: Date)
    requires ValidDate(d)
    ensures Strip(Iso(d)) == Iso(d)
  {
    var s := Iso(d);
    assert IsDigit(s[0]) && IsDigit(s[9]);
    StripNoEdgeSpace(s);
  }

  lemma TwentyPrefix(yy: string)
    requires |yy| == 2 && AllDigits(yy)
    ensures AllDigits("20" + yy) && NatOf("20" + yy) == 2000 + NatOf(yy)
  {
    var t := "20" + yy;
    assert t[..3] == "20" + yy[..1];
    assert t[..3][..2] == "20";
    assert "20"[..1] == "2" && "2"[..0] == [];
    assert NatOf("2") == 2;
    assert NatOf("20") == 20;
    assert yy[..1][..0] == [];
    assert NatOf(yy[..1]) == DigitValue(yy[0]);
    assert yy[..|yy| - 1] == yy[..1];
  }

  /** A year directive followed by a non-digit literal cannot match a string of digits. */
  lemma YearThenLiteralFails(s: string, f: Format, a: Date)
    requires AllDigits(s) && |f| >= 2 && (f[0] == Year4 || f[0] == Year2)
    requires f[1].Lit? && !IsDigit(f[1].c)
    ensures Match(s, f, a).None?
  {
    var n := if f[0] == Year4 then 4 else 2;
    if |s| >= n {
      var rest := s[n..];
      assert rest == [] || IsDigit(rest[0]);
      assert Match(rest, f[1..], a.(year := 0)).None? by {
        assert f[1..][0] == f[1];
      }
    }
  }

  /** No strptime format of the list accepts a string made only of digits. */
  lemma NoFormatReadsDigits(s: string)
    requires AllDigits(s)
    ensures FirstParse(s, ApprovalFormats).None?
  {
    var a := Date(1900, 1, 1);
    forall k | 0 <= k < |ApprovalFormats|
      ensures Strptime(s, ApprovalFormats[k]).None?
    {
      YearThenLiteralFails(s, ApprovalFormats[k], a);
    }
  }
}
