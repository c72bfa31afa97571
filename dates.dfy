/**
 * Calendar dates and the subset of Python's `datetime.strptime` the project uses:
 * the directives %Y (four digits), %y (two digits), %m, %d, literal characters and
 * whitespace (a blank in the format matches one or more whitespace characters).
 * Each directive is matched with the alternatives, in order, of CPython's `_strptime`
 * regular expressions, with backtracking; the match must consume the whole string and
 * the fields must form a real calendar date.
 */
module Dates {
  import opened Wrappers
  import opened Text

  /** A (year, month, day) triple; not necessarily a calendar date. */
  datatype Date = Date(year: int, month: int, day: int)

  predicate IsLeap(y: int) { y % 4 == 0 && (y % 100 != 0 || y % 400 == 0) }

  function DaysInMonth(y: int, m: int): (r: int)
    requires 1 <= m <= 12
    ensures 28 <= r <= 31
  {
    if m == 2 then (if IsLeap(y) then 29 else 28)
    else if m == 4 || m == 6 || m == 9 || m == 11 then 30
    else 31
  }

  /** What `datetime.date(y, m, d)` accepts. */
  predicate ValidDate(d: Date)
  {
    1 <= d.year <= 9999 && 1 <= d.month <= 12 && 1 <= d.day <= DaysInMonth(d.year, d.month)
  }

  /** Chronological `a < b` (tuple order). */
  predicate Before(a: Date, b: Date)
  {
    a.year < b.year || (a.year == b.year && (a.month < b.month || (a.month == b.month && a.day < b.day)))
  }

  lemma BeforeTotal(a: Date, b: Date)
    ensures Before(a, b) || Before(b, a) || a == b
    ensures !(Before(a, b) && Before(b, a))
  {
  }

  // ------------------------------------------------------------------ formatting

  function DigitChar(n: nat): (c: char)
    requires n < 10
    ensures IsDigit(c) && DigitValue(c) == n
  {
    ('0' as int + n) as char
  }

  function Pad2(n: nat): (r: string)
    requires n < 100
    ensures |r| == 2 && AllDigits(r)
  {
    [DigitChar(n / 10), DigitChar(n % 10)]
  }

  function Pad4(n: nat): (r: string)
    requires n < 10000
    ensures |r| == 4 && AllDigits(r)
  {
    Pad2(n / 100) + Pad2(n % 100)
  }

  /** `str(date)`: "YYYY-MM-DD" with zero padding. */
  function FormatWith(d: Date, sep: char): (r: string)
    requires ValidDate(d)
    ensures |r| == 10 && r[4] == sep && r[7] == sep
  {
    Pad4(d.year) + [sep] + Pad2(d.month) + [sep] + Pad2(d.day)
  }

  function Iso(d: Date): (r: string)
    requires ValidDate(d)
    ensures |r| == 10
  {
    FormatWith(d, '-')
  }

  lemma Pad2Value(n: nat)
    requires n < 100
    ensures NatOf(Pad2(n)) == n
  {
    var p := Pad2(n);
    assert p[..1] == [DigitChar(n / 10)];
    assert NatOf(p[..1]) == NatOf([]) * 10 + n / 10;
  }

  lemma Pad4Value(n: nat)
    requires n < 10000
    ensures NatOf(Pad4(n)) == n
  {
    var hi, lo := Pad2(n / 100), Pad2(n % 100);
    Pad2Value(n / 100);
    NatOfConcat2(hi, lo);
  }

  lemma NatOfConcat2(a: string, b: string)
    requires AllDigits(a) && AllDigits(b) && |b| == 2
    ensures AllDigits(a + b) && NatOf(a + b) == NatOf(a) * 100 + NatOf(b)
  {
    var ab := a + b;
    var a1 := a + b[..1];
    assert ab[..|ab| - 1] == a1;
    assert a1[..|a1| - 1] == a;
    assert NatOf(a1) == NatOf(a) * 10 + DigitValue(b[0]);
    assert NatOf(ab) == NatOf(a1) * 10 + DigitValue(b[1]);
    assert b[..1][..0] == [];
    assert NatOf(b[..1]) == DigitValue(b[0]);
    assert b[..|b| - 1] == b[..1];
    assert NatOf(b) == DigitValue(b[0]) * 10 + DigitValue(b[1]);
  }

  // ------------------------------------------------------------------ strptime

  datatype Directive = Year4 | Year2 | Month | Day | Lit(c: char) | Blank

  type Format = seq<Directive>

  const FmtDash: Format := [Year4, Lit('-'), Month, Lit('-'), Day]
  const FmtDot: Format := [Year4, Lit('.'), Month, Lit('.'), Day]
  const FmtSlash: Format := [Year4, Lit('/'), Month, Lit('/'), Day]
  /** "%Y. %m. %d" */
  const FmtDotSpaced: Format := [Year4, Lit('.'), Blank, Month, Lit('.'), Blank, Day]
  const FmtShortDash: Format := [Year2, Lit('-'), Month, Lit('-'), Day]
  const FmtShortDot: Format := [Year2, Lit('.'), Month, Lit('.'), Day]
  /** "%Y년 %m월 %d일" */
  const FmtKoreanSpaced: Format := [Year4, Lit('년'), Blank, Month, Lit('월'), Blank, Day, Lit('일')]
  /** "%Y년%m월%d일" */
  const FmtKorean: Format := [Year4, Lit('년'), Month, Lit('월'), Day, Lit('일')]

  /** Number of whitespace characters at the start of `s`. */
  function SpaceRun(s: string): (n: nat)
    ensures n <= |s|
    ensures forall i :: 0 <= i < n ==> IsSpace(s[i])
    ensures n == |s| || !IsSpace(s[n])
  {
    if s != [] && IsSpace(s[0]) then 1 + SpaceRun(s[1..]) else 0
  }

  /** Two-digit alternatives of `%m`: 1[0-2] | 0[1-9]. */
  predicate MonthTwo(s: string)
  {
    |s| >= 2 && ((s[0] == '1' && '0' <= s[1] <= '2') || (s[0] == '0' && '1' <= s[1] <= '9'))
  }

  /** Two-digit alternatives of `%d`: 3[01] | [12]\d | 0[1-9]. */
  predicate DayTwo(s: string)
  {
    |s| >= 2 && ((s[0] == '3' && (s[1] == '0' || s[1] == '1'))
                 || ((s[0] == '1' || s[0] == '2') && IsDigit(s[1]))
                 || (s[0] == '0' && '1' <= s[1] <= '9'))
  }

  predicate NonZeroDigit(c: char) { '1' <= c <= '9' }

  /**
   * The first successful match of format `f` at the start of `s`, trying each directive's
   * alternatives in regex order; yields the fields read and the unconsumed rest.
   */
  function Match(s: string, f: Format, acc: Date): (r: Option<(Date, string)>)
    decreases |f|, |s| + 1
  {
    if f == [] then Some((acc, s))
    else match f[0]
      case Lit(c) =>
        if |s| > 0 && s[0] == c then Match(s[1..], f[1..], acc) else None
      case Year4 =>
        if |s| >= 4 && AllDigits(s[..4]) then Match(s[4..], f[1..], acc.(year := NatOf(s[..4]))) else None
      case Year2 =>
        if |s| >= 2 && AllDigits(s[..2]) then
          var yy := NatOf(s[..2]);
          Match(s[2..], f[1..], acc.(year := if yy <= 68 then 2000 + yy else 1900 + yy))
        else None
      case Month =>
        var two := if MonthTwo(s) then Match(s[2..], f[1..], acc.(month := NatOf(s[..2]))) else None;
        if two.Some? then two
        else if |s| >= 1 && NonZeroDigit(s[0]) then Match(s[1..], f[1..], acc.(month := DigitValue(s[0])))
        else None
      case Day =>
        var two := if DayTwo(s) then Match(s[2..], f[1..], acc.(day := NatOf(s[..2]))) else None;
        if two.Some? then two
        else if |s| >= 1 && NonZeroDigit(s[0]) then Match(s[1..], f[1..], acc.(day := DigitValue(s[0])))
        else if |s| >= 2 && s[0] == ' ' && NonZeroDigit(s[1]) then Match(s[2..], f[1..], acc.(day := DigitValue(s[1])))
        else None
      case Blank =>
        MatchBlank(s, f[1..], acc, SpaceRun(s))
  }

  /** `\s+` is greedy: try the longest whitespace run first, then shorter ones. */
  function MatchBlank(s: string, rest: Format, acc: Date, k: nat): (r: Option<(Date, string)>)
    requires k <= |s|
    decreases |rest| + 1, k
  {
    if k == 0 then None
    else
      var m := Match(s[k..], rest, acc);
      if m.Some? then m else MatchBlank(s, rest, acc, k - 1)
  }

  /** `datetime.strptime(s, f)`, reduced to its date. */
  function Strptime(s: string, f: Format): (r: Option<Date>)
    ensures r.Some? ==> ValidDate(r.value)
  {
    var m := Match(s, f, Date(1900, 1, 1));
    if m.Some? && m.value.1 == [] && ValidDate(m.value.0) then Some(m.value.0) else None
  }

  /** Try the formats in order; the first that parses wins. */
  function FirstParse(s: string, fmts: seq<Format>): (r: Option<Date>)
    ensures r.Some? ==> ValidDate(r.value)
    ensures r.Some? ==> exists k :: 0 <= k < |fmts| && Strptime(s, fmts[k]) == r
    ensures r.None? ==> forall k :: 0 <= k < |fmts| ==> Strptime(s, fmts[k]).None?
  {
    if fmts == [] then None
    else
      var d := Strptime(s, fmts[0]);
      if d.Some? then d
      else
        var t := FirstParse(s, fmts[1..]);
        assert forall k :: 1 <= k < |fmts| ==> fmts[k] == fmts[1..][k - 1];
        t
  }

  /**
   * Printing a date with separator `sep` and parsing it back with the matching
   * "%Y{sep}%m{sep}%d" format gives the same date.
   */
  lemma {:induction false} ParseFormatRoundTrip(d: Date, sep: char)
    requires ValidDate(d) && 1000 <= d.year
    requires !IsDigit(sep)
    ensures Strptime(FormatWith(d, sep), [Year4, Lit(sep), Month, Lit(sep), Day]) == Some(d)
  {
    var s := FormatWith(d, sep);
    var f: Format := [Year4, Lit(sep), Month, Lit(sep), Day];
    Pad4Value(d.year);
    Pad2Value(d.month);
    Pad2Value(d.day);
    var mm, dd := Pad2(d.month), Pad2(d.day);
    assert s[..4] == Pad4(d.year);
    assert s[4..] == [sep] + mm + [sep] + dd;
    var a1 := Date(d.year, 1, 1);
    var a2 := Date(d.year, d.month, 1);
    var s3 := [sep] + dd;
    // month: both zero-padded forms of 1..12 are two-digit alternatives
    assert MonthTwo(mm + s3);
    assert (mm + s3)[..2] == mm && (mm + s3)[2..] == s3;
    assert DayTwo(dd);
    assert dd[..2] == dd && dd[2..] == [];
    assert Match(dd, [Day], a2) == Some((d, []));
    assert Match(s3, [Lit(sep), Day], a2) == Some((d, []));
    assert Match(mm + s3, [Month, Lit(sep), Day], a1) == Some((d, []));
    assert s[4..][1..] == mm + s3;
    assert Match(s[4..], f[1..], a1) == Some((d, []));
  }

  /** A date printed with separator `sep` does not parse under a format with another one. */
  lemma SeparatorMismatch(d: Date, sep: char, other: char)
    requires ValidDate(d) && sep != other
    ensures Strptime(FormatWith(d, sep), [Year4, Lit(other), Month, Lit(other), Day]).None?
  {
    var s := FormatWith(d, sep);
    var f: Format := [Year4, Lit(other), Month, Lit(other), Day];
    assert s[..4] == Pad4(d.year);
    assert s[4..][0] == sep;
    assert Match(s[4..], f[1..], Date(1900, 1, 1).(year := NatOf(s[..4]))).None?;
  }

  lemma IsoRoundTrip(d: Date)
    requires ValidDate(d) && 1000 <= d.year
    ensures Strptime(Iso(d), FmtDash) == Some(d)
  {
    ParseFormatRoundTrip(d, '-');
  }
}
