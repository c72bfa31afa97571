/**
 * The announcement text parser: reads the title, the dates, the purchase criteria and the
 * exclusion sections out of the text of a purchase announcement, and turns what it read
 * into an announcement configuration. Every search is a `re.search`/`re.findall` run by the
 * engine of module Regex on the pattern written out below it.
 */
module AnnouncementParser {
  import opened Wrappers
  import opened Text
  import opened Regex
  import opened ExclusionRules

  // ---------------------------------------------------------------- pattern pieces

  /** `\s*` */
  const Spaces: Item := Rep(Space, 0, None, false, None)

  /** `[...]?` */
  function Optional(chars: set<char>): Item { Rep(OneOf(chars), 0, Some(1), false, None) }

  /** `[...]` */
  function OneChar(chars: set<char>): Item { Rep(OneOf(chars), 1, Some(1), false, None) }

  /** `(\d{lo,hi})` as group `g`; `hi == None` is `\d+`. */
  function DigitGroup(lo: nat, hi: Option<nat>, g: nat): Item { Rep(Digit, lo, hi, false, Some(g)) }

  const Year: Item := DigitGroup(4, Some(4), 1)
  const Month: Item := DigitGroup(1, Some(2), 2)
  const Day: Item := DigitGroup(1, Some(2), 3)

  /** `[:：]?` */
  const Colon: Item := Optional({':', '：'})

  /** `[.\s]*` */
  const DotsOrSpaces: Item := Rep(SpaceOr({'.'}), 0, None, false, None)

  // ---------------------------------------------------------------- the date patterns

  /** `(\d{4})\.\s*(\d{1,2})\.\s*(\d{1,2})\.\s*$` under MULTILINE: a date that ends a line. */
  const LineEndDate: Regex :=
    [Year, Lit("."), Spaces, Month, Lit("."), Spaces, Day, Lit("."), Spaces, LineEnd]

  /** `공고일?\s*[:：]?\s*(\d{4})[.\s]*(\d{1,2})[.\s]*(\d{1,2})` */
  const NoticeDate: Regex :=
    [Lit("공고"), Optional({'일'}), Spaces, Colon, Spaces, Year, DotsOrSpaces, Month, DotsOrSpaces, Day]

  /** `(\d{4})년\s*(\d{1,2})월\s*(\d{1,2})일` */
  const KoreanDate: Regex :=
    [Year, Lit("년"), Spaces, Month, Lit("월"), Spaces, Day, Lit("일")]

  /** `신청기간\s*[:：]?\s*(\d{4})\.(\d{1,2})\.(\d{1,2})` */
  const ApplicationStartDate: Regex :=
    [Lit("신청기간"), Spaces, Colon, Spaces, Year, Lit("."), Month, Lit("."), Day]

  /** `[~～∼]\s*(\d{4})\.(\d{1,2})\.(\d{1,2})` */
  const ApplicationEndDate: Regex :=
    [OneChar({'~', '～', '∼'}), Spaces, Year, Lit("."), Month, Lit("."), Day]

  /** `착공일[이가]\s*['\"]?(\d{2,4})\.(\d{1,2})\.(\d{1,2})` */
  const ConstructionStartDate: Regex :=
    [Lit("착공일"), OneChar({'이', '가'}), Spaces, Optional({'\'', '"'}), DigitGroup(2, Some(4), 1),
     Lit("."), Month, Lit("."), Day]

  /** `사용승인일[이가]\s*['\"]?(\d{2,4})\.(\d{1,2})\.(\d{1,2})` */
  const ApprovalDate: Regex :=
    [Lit("사용승인일"), OneChar({'이', '가'}), Spaces, Optional({'\'', '"'}), DigitGroup(2, Some(4), 1),
     Lit("."), Month, Lit("."), Day]

  /**
   * Groups 1, 2 and 3 of `re` are the year (`yearMin` to 4 digits), the month and the day
   * (1 or 2 digits each).
   */
  predicate DateGroups(re: Regex, yearMin: nat)
  {
    HasGroup(re, 1) && GroupIs(re, 1, Digit, yearMin, Some(4))
    && HasGroup(re, 2) && GroupIs(re, 2, Digit, 1, Some(2))
    && HasGroup(re, 3) && GroupIs(re, 3, Digit, 1, Some(2))
  }

  lemma LineEndDateGroups()
    ensures DateGroups(LineEndDate, 4)
  {
    assert LineEndDate[0] == Year && LineEndDate[3] == Month && LineEndDate[6] == Day;
  }

  lemma NoticeDateGroups()
    ensures DateGroups(NoticeDate, 4)
  {
    assert NoticeDate[5] == Year && NoticeDate[7] == Month && NoticeDate[9] == Day;
  }

  lemma KoreanDateGroups()
    ensures DateGroups(KoreanDate, 4)
  {
    assert KoreanDate[0] == Year && KoreanDate[3] == Month && KoreanDate[6] == Day;
  }

  lemma ApplicationStartGroups()
    ensures DateGroups(ApplicationStartDate, 4)
  {
    assert ApplicationStartDate[4] == Year && ApplicationStartDate[6] == Month && ApplicationStartDate[8] == Day;
  }

  lemma ApplicationEndGroups()
    ensures DateGroups(ApplicationEndDate, 4)
  {
    assert ApplicationEndDate[2] == Year && ApplicationEndDate[4] == Month && ApplicationEndDate[6] == Day;
  }

  lemma ConstructionGroups()
    ensures DateGroups(ConstructionStartDate, 2) && DateGroups(ApprovalDate, 2)
  {
    assert ConstructionStartDate[4].group == Some(1) && ConstructionStartDate[6] == Month
      && ConstructionStartDate[8] == Day;
    assert ApprovalDate[4].group == Some(1) && ApprovalDate[6] == Month && ApprovalDate[8] == Day;
  }

  // ---------------------------------------------------------------- zero padding

  /** `s.zfill(width)` for a string without a sign: `s` left-padded with '0' to `width`. */
  function ZFill(s: string, width: nat): (r: string)
    ensures |r| == if |s| < width then width else |s|
    ensures r[|r| - |s|..] == s
    ensures forall i :: 0 <= i < |r| - |s| ==> r[i] == '0'
    decreases width - |s|
  {
    if |s| >= width then s
    else
      var t := "0" + s;
      var r := ZFill(t, width);
      assert r[|r| - |s|..] == r[|r| - |t|..][1..];
      r
  }

  /** A leading zero does not change the value of a digit string. */
  lemma {:induction false} NatOfLeadingZero(s: string)
    requires AllDigits(s)
    ensures AllDigits("0" + s) && NatOf("0" + s) == NatOf(s)
  {
    var t := "0" + s;
    if s == [] {
      assert t[..0] == [];
    } else {
      var init := s[..|s| - 1];
      NatOfLeadingZero(init);
      assert t[..|t| - 1] == "0" + init;
    }
  }

  /** Zero padding keeps a digit string a digit string of the same value. */
  lemma {:induction false} ZFillKeepsValue(s: string, width: nat)
    requires AllDigits(s)
    ensures AllDigits(ZFill(s, width)) && NatOf(ZFill(s, width)) == NatOf(s)
    decreases width - |s|
  {
    if |s| < width {
      NatOfLeadingZero(s);
      ZFillKeepsValue("0" + s, width);
    }
  }

  // ---------------------------------------------------------------- date strings

  /**
   * `r` is a date string with a `yearLength`-digit year: `Y...Y-MM-DD`, digits everywhere
   * but at the two dashes.
   */
  predicate DateShaped(r: string, yearLength: nat)
  {
    |r| == yearLength + 6 && r[yearLength] == '-' && r[yearLength + 3] == '-'
    && forall i :: 0 <= i < |r| && i != yearLength && i != yearLength + 3 ==> IsDigit(r[i])
  }

  /** "YYYY-MM-DD" */
  predicate IsoShaped(r: string) { DateShaped(r, 4) }

  /** Joining a year and a two-digit month and day with dashes gives a date string. */
  lemma JoinDate(year: string, m: string, d: string)
    requires AllDigits(year) && AllDigits(m) && AllDigits(d) && |m| == 2 && |d| == 2
    ensures var r := year + "-" + m + "-" + d;
      DateShaped(r, |year|) && r[..|year|] == year && r[|year| + 1..|year| + 3] == m && r[|year| + 4..] == d
  {
    var r := year + "-" + m + "-" + d;
    var n := |year|;
    forall i | 0 <= i < |r| && i != n && i != n + 3
      ensures IsDigit(r[i])
    {
      if i < n {
        assert r[i] == year[i];
      } else if i < n + 3 {
        assert r[i] == m[i - n - 1];
      } else {
        assert r[i] == d[i - n - 4];
      }
    }
  }

  /** `f"{year}-{month.zfill(2)}-{day.zfill(2)}"` */
  function DateText(year: string, month: string, day: string): (r: string)
    requires AllDigits(year) && AllDigits(month) && AllDigits(day)
    requires 1 <= |month| <= 2 && 1 <= |day| <= 2
    ensures DateShaped(r, |year|)
    ensures r[..|year|] == year
    ensures NatOf(r[|year| + 1..|year| + 3]) == NatOf(month)
    ensures NatOf(r[|year| + 4..]) == NatOf(day)
  {
    ZFillKeepsValue(month, 2);
    ZFillKeepsValue(day, 2);
    JoinDate(year, ZFill(month, 2), ZFill(day, 2));
    year + "-" + ZFill(month, 2) + "-" + ZFill(day, 2)
  }

  /** Group `g` of a match of `re` whose group `g` repeats `\d`, as a digit string. */
  lemma DigitGroupText(re: Regex, s: string, f: Found, g: nat, lo: nat, hi: Option<nat>)
    requires Matched(re, s, f) && ValidFound(s, f)
    requires HasGroup(re, g) && GroupIs(re, g, Digit, lo, hi)
    ensures var t := GroupText(s, f, g); AllDigits(t) && lo <= |t| && (hi.Some? ==> |t| <= hi.value)
  {
    GroupTextFits(re, s, f, g, Digit, lo, hi);
  }

  /** The date a match of a date pattern spells: its year, then its month and day zero-padded. */
  function MatchedDate(re: Regex, s: string, f: Found, yearMin: nat): (r: string)
    requires Matched(re, s, f) && ValidFound(s, f) && DateGroups(re, yearMin)
    ensures var y := GroupText(s, f, 1); var m := GroupText(s, f, 2); var d := GroupText(s, f, 3);
      yearMin <= |y| <= 4 && AllDigits(y) && AllDigits(m) && AllDigits(d)
      && DateShaped(r, |y|) && r[..|y|] == y
      && NatOf(r[|y| + 1..|y| + 3]) == NatOf(m) && NatOf(r[|y| + 4..]) == NatOf(d)
  {
    DigitGroupText(re, s, f, 1, yearMin, Some(4));
    DigitGroupText(re, s, f, 2, 1, Some(2));
    DigitGroupText(re, s, f, 3, 1, Some(2));
    DateText(GroupText(s, f, 1), GroupText(s, f, 2), GroupText(s, f, 3))
  }

  /** A match of a pattern with a four-digit year group spells a "YYYY-MM-DD" date. */
  function MatchedIsoDate(re: Regex, s: string, f: Found): (r: string)
    requires Matched(re, s, f) && ValidFound(s, f) && DateGroups(re, 4)
    ensures IsoShaped(r)
  {
    MatchedDate(re, s, f, 4)
  }

  /** `text[:500]` */
  function Head500(text: string): (r: string)
    ensures |r| <= 500 && IsPrefix(r, text)
  {
    if |text| <= 500 then text else text[..500]
  }

  /** `re.search(re, s)` finds nothing. */
  predicate Absent(re: Regex, s: string)
  {
    NoMatchIn(re, s, 0, |s| + 1)
  }

  /** The search finds nothing exactly when the pattern is absent. */
  lemma SearchAbsent(re: Regex, s: string)
    ensures Search(re, s).None? <==> Absent(re, s)
  {
    SearchLeftmost(re, s);
    var m := Search(re, s);
    if m.Some? {
      assert MatchAt(re, s, m.value.start, map[]).Some?;
    }
  }

  /** The date the leftmost match of the date pattern `re` spells, if `re` occurs in `s`. */
  function DateBy(re: Regex, s: string): (r: Option<string>)
    requires DateGroups(re, 4)
    ensures r.Some? ==> IsoShaped(r.value)
    ensures r.None? <==> Absent(re, s)
  {
    var m := Search(re, s);
    SearchAbsent(re, s);
    if m.Some? then Some(MatchedIsoDate(re, s, m.value)) else None
  }

  /** The announcement date: a date ending a line, else one after "공고", else a 년/월/일 date early on. */
  function NoticeDateOf(text: string): (r: Option<string>)
    ensures r.Some? ==> IsoShaped(r.value)
    ensures r.None? <==> Absent(LineEndDate, text) && Absent(NoticeDate, text) && Absent(KoreanDate, Head500(text))
  {
    LineEndDateGroups();
    NoticeDateGroups();
    KoreanDateGroups();
    var d1 := DateBy(LineEndDate, text);
    if d1.Some? then d1
    else
      var d2 := DateBy(NoticeDate, text);
      if d2.Some? then d2 else DateBy(KoreanDate, Head500(text))
  }

  /**
   * `_extract_date(text, dateType)`: "공고" reads the announcement date, "시작" the date after
   * "신청기간", "마감" the date after a tilde; any other type reads nothing.
   */
  function ExtractDate(text: string, dateType: string): (r: Option<string>)
    ensures r.Some? ==> IsoShaped(r.value)
    ensures dateType != "공고" && dateType != "시작" && dateType != "마감" ==> r.None?
  {
    if dateType == "공고" then NoticeDateOf(text)
    else if dateType == "시작" then ApplicationStartGroups(); DateBy(ApplicationStartDate, text)
    else if dateType == "마감" then ApplicationEndGroups(); DateBy(ApplicationEndDate, text)
    else None
  }

  /** The announcement date is missing exactly when none of its three patterns occurs. */
  lemma NoticeDateFound(text: string)
    ensures ExtractDate(text, "공고").None? <==>
      Absent(LineEndDate, text) && Absent(NoticeDate, text) && Absent(KoreanDate, Head500(text))
  {
    assert ExtractDate(text, "공고") == NoticeDateOf(text);
  }

  /**
   * The announcement date comes from the first of its patterns that occurs: a date ending a
   * line, then a date after "공고", then a 년/월/일 date in the first 500 characters.
   */
  lemma NoticeDatePriority(text: string)
    requires DateGroups(LineEndDate, 4) && DateGroups(NoticeDate, 4) && DateGroups(KoreanDate, 4)
    ensures !Absent(LineEndDate, text) ==> ExtractDate(text, "공고") == DateBy(LineEndDate, text)
    ensures Absent(LineEndDate, text) && !Absent(NoticeDate, text) ==>
      ExtractDate(text, "공고") == DateBy(NoticeDate, text)
    ensures Absent(LineEndDate, text) && Absent(NoticeDate, text) ==>
      ExtractDate(text, "공고") == DateBy(KoreanDate, Head500(text))
  {
    assert ExtractDate(text, "공고") == NoticeDateOf(text);
  }

  /** The application start is missing exactly when "신청기간" and a date do not occur. */
  lemma StartDateFound(text: string)
    ensures ExtractDate(text, "시작").None? <==> Absent(ApplicationStartDate, text)
  {
    ApplicationStartGroups();
    assert ExtractDate(text, "시작") == DateBy(ApplicationStartDate, text);
  }

  /** The application end is missing exactly when no date follows a tilde. */
  lemma EndDateFound(text: string)
    ensures ExtractDate(text, "마감").None? <==> Absent(ApplicationEndDate, text)
  {
    ApplicationEndGroups();
    assert ExtractDate(text, "마감") == DateBy(ApplicationEndDate, text);
  }

  // ---------------------------------------------------------------- title

  /** `(\d{4}년도?\s*\S+지역\s*기존주택\s*매입\s*공고)`; its one group spans the whole pattern. */
  const RegionTitle: Regex :=
    [Rep(Digit, 4, Some(4), false, None), Lit("년"), Optional({'도'}), Spaces, Rep(NotSpace, 1, None, false, None),
     Lit("지역"), Spaces, Lit("기존주택"), Spaces, Lit("매입"), Spaces, Lit("공고")]

  /** `(\d{4}년\s*\S+\s*기존주택매입공고)`; its one group spans the whole pattern. */
  const PlainTitle: Regex :=
    [Rep(Digit, 4, Some(4), false, None), Lit("년"), Spaces, Rep(NotSpace, 1, None, false, None), Spaces,
     Lit("기존주택매입공고")]

  /** The stripped text of the leftmost match of `re` in `s`, if there is one. */
  function StrippedMatch(re: Regex, s: string): (r: Option<string>)
    ensures r.None? <==> Absent(re, s)
    ensures r.Some? ==> NoEdgeSpace(r.value)
  {
    var m := Search(re, s);
    SearchAbsent(re, s);
    if m.Some? then Some(Strip(MatchText(s, m.value))) else None
  }

  /** The stripped match of `first`, else that of `second`. */
  function FirstStrippedMatch(first: Regex, second: Regex, text: string): (r: Option<string>)
    ensures r.Some? ==> NoEdgeSpace(r.value)
    ensures r.None? <==> Absent(first, text) && Absent(second, text)
  {
    var t := StrippedMatch(first, text);
    if t.Some? then t else StrippedMatch(second, text)
  }

  /** `_extract_title`: the first of the two title patterns that occurs, stripped. */
  function ExtractTitle(text: string): (r: Option<string>)
    ensures r.Some? ==> NoEdgeSpace(r.value)
  {
    FirstStrippedMatch(RegionTitle, PlainTitle, text)
  }

  /** A title is found exactly when one of the two title patterns occurs. */
  lemma ExtractTitleFound(text: string)
    ensures ExtractTitle(text).None? <==> Absent(RegionTitle, text) && Absent(PlainTitle, text)
  {
    var r := FirstStrippedMatch(RegionTitle, PlainTitle, text);
    assert r.None? <==> Absent(RegionTitle, text) && Absent(PlainTitle, text);
  }

  // ---------------------------------------------------------------- purchase criteria

  /** `(\d+)호\s*이상\s*건물` */
  const MinUnitsPattern: Regex :=
    [DigitGroup(1, None, 1), Lit("호"), Spaces, Lit("이상"), Spaces, Lit("건물")]

  /** `int(match.group(g))` for a group `(\d+)`. */
  function MatchedNumber(re: Regex, s: string, f: Found, g: nat): (r: nat)
    requires Matched(re, s, f) && ValidFound(s, f)
    requires HasGroup(re, g) && GroupIs(re, g, Digit, 1, None)
    ensures var t := GroupText(s, f, g); 1 <= |t| && AllDigits(t) && r == NatOf(t)
  {
    DigitGroupText(re, s, f, g, 1, None);
    NatOf(GroupText(s, f, g))
  }

  /** The number group 1 of the leftmost match of `re` spells, or `default` when `re` does not occur. */
  function NumberBy(re: Regex, text: string, default: nat): (r: nat)
    requires HasGroup(re, 1) && GroupIs(re, 1, Digit, 1, None)
    ensures Absent(re, text) ==> r == default
    ensures !Absent(re, text) ==> (Search(re, text).Some? &&
      var t := GroupText(text, Search(re, text).value, 1); 1 <= |t| && AllDigits(t) && r == NatOf(t))
  {
    var m := Search(re, text);
    SearchAbsent(re, text);
    if m.Some? then MatchedNumber(re, text, m.value, 1) else default
  }

  /** `_extract_min_units`: the number before "호 이상 건물", else 15. */
  function ExtractMinUnits(text: string): (r: nat)
    ensures Absent(MinUnitsPattern, text) ==> r == 15
    ensures !Absent(MinUnitsPattern, text) ==> (Search(MinUnitsPattern, text).Some? &&
      var t := GroupText(text, Search(MinUnitsPattern, text).value, 1); 1 <= |t| && AllDigits(t) && r == NatOf(t))
  {
    assert MinUnitsPattern[0] == DigitGroup(1, None, 1);
    NumberBy(MinUnitsPattern, text, 15)
  }

  /** The four housing types the announcement may name, in the order they are reported. */
  const AllHousingTypes: seq<string> := ["다가구", "공동주택", "도시형생활주택", "주거용오피스텔"]

  predicate NamesMultiHousehold(text: string) { Contains(text, "다가구") }
  predicate NamesApartmentHouse(text: string) { Contains(text, "다세대") || Contains(text, "연립") }
  predicate NamesUrbanHousing(text: string) { Contains(text, "도시형생활주택") }
  predicate NamesOfficetel(text: string) { Contains(text, "오피스텔") }

  predicate NamesSomeType(text: string)
  {
    NamesMultiHousehold(text) || NamesApartmentHouse(text) || NamesUrbanHousing(text) || NamesOfficetel(text)
  }

  /**
   * `_extract_housing_types`: the types the text names, multi-household ("다가구"),
   * apartment house ("다세대" or "연립"), urban housing and officetel; all four when it names none.
   */
  function ExtractHousingTypes(text: string): (r: seq<string>)
    ensures |r| > 0 && NoDuplicates(r)
    ensures forall t :: t in r ==> t in AllHousingTypes
  {
    var types := (if NamesMultiHousehold(text) then ["다가구"] else [])
      + (if NamesApartmentHouse(text) then ["공동주택"] else [])
      + (if NamesUrbanHousing(text) then ["도시형생활주택"] else [])
      + (if NamesOfficetel(text) then ["주거용오피스텔"] else []);
    if types != [] then types else AllHousingTypes
  }

  /** With no type named, all four are returned; otherwise exactly the types named. */
  lemma HousingTypesNamed(text: string)
    ensures var r := ExtractHousingTypes(text);
      (!NamesSomeType(text) ==> r == AllHousingTypes)
      && (NamesSomeType(text) ==>
        ("다가구" in r <==> NamesMultiHousehold(text)) && ("공동주택" in r <==> NamesApartmentHouse(text))
        && ("도시형생활주택" in r <==> NamesUrbanHousing(text)) && ("주거용오피스텔" in r <==> NamesOfficetel(text)))
  {
  }

  /** The band pattern that follows a type's name: `[^\n]*전용\s*(\d+)[㎡m²]?\s*[~∼～]\s*(\d+)`. */
  function AreaPattern(head: Regex): Regex
  {
    head + [Rep(NotNewline, 0, None, false, None), Lit("전용"), Spaces, DigitGroup(1, None, 1),
            Optional({'㎡', 'm', '²'}), Spaces, OneChar({'~', '∼', '～'}), Spaces, DigitGroup(1, None, 2)]
  }

  /** The keys of the area table, in the order the bands are searched. */
  const AreaKeys: seq<string> := ["일반", "청년", "신혼신생아", "다자녀"]

  /** What introduces each band: `일반[가구용]*`, `청년`, `신혼`, `다자녀`. */
  const AreaHeads: seq<Regex> :=
    [[Lit("일반"), Rep(OneOf({'가', '구', '용'}), 0, None, false, None)], [Lit("청년")], [Lit("신혼")], [Lit("다자녀")]]

  /** The table used when the text states no band. */
  const DefaultAreaCriteria: seq<(string, AreaBand)> :=
    [("일반", AreaBand(20, 85)), ("청년", AreaBand(16, 60)), ("신혼신생아", AreaBand(36, 85)), ("다자녀", AreaBand(46, 85))]

  /** The two numbers of a band pattern are its groups 1 and 2, both `(\d+)`. */
  lemma AreaGroups(k: nat)
    requires k < 4
    ensures var re := AreaPattern(AreaHeads[k]);
      HasGroup(re, 1) && GroupIs(re, 1, Digit, 1, None) && HasGroup(re, 2) && GroupIs(re, 2, Digit, 1, None)
  {
    var head := AreaHeads[k];
    var re := AreaPattern(head);
    var n := |head|;
    assert forall j :: 0 <= j < n ==> !(head[j].Rep? && head[j].group.Some?);
    assert forall j :: 0 <= j < n ==> re[j] == head[j];
    assert re[n + 3] == DigitGroup(1, None, 1);
    assert re[n + 8] == DigitGroup(1, None, 2);
  }

  /** The band the text states for type `k`: the two numbers of the leftmost band pattern. */
  function BandOf(text: string, k: nat): (r: Option<AreaBand>)
    requires k < 4
    ensures r.None? <==> Absent(AreaPattern(AreaHeads[k]), text)
    ensures r.Some? ==> r.value.min >= 0 && r.value.max >= 0
  {
    var re := AreaPattern(AreaHeads[k]);
    var m := Search(re, text);
    SearchAbsent(re, text);
    if m.Some? then
      AreaGroups(k);
      Some(AreaBand(MatchedNumber(re, text, m.value, 1), MatchedNumber(re, text, m.value, 2)))
    else None
  }

  /** The band the text states for each of the four types, in the order of `AreaKeys`. */
  function Bands(text: string): (r: seq<Option<AreaBand>>)
    ensures |r| == 4
  {
    [BandOf(text, 0), BandOf(text, 1), BandOf(text, 2), BandOf(text, 3)]
  }

  /** `{key: band}` when the band was found, else nothing. */
  function Entry(bands: seq<Option<AreaBand>>, k: nat): seq<(string, AreaBand)>
    requires |bands| == 4 && k < 4
  {
    if bands[k].Some? then [(AreaKeys[k], bands[k].value)] else []
  }

  /** The table of the bands found, in the order of `AreaKeys`. */
  function Table(bands: seq<Option<AreaBand>>): seq<(string, AreaBand)>
    requires |bands| == 4
  {
    Entry(bands, 0) + Entry(bands, 1) + Entry(bands, 2) + Entry(bands, 3)
  }

  /** Some entry of `table` is keyed `key`. */
  predicate HasKey(table: seq<(string, AreaBand)>, key: string)
  {
    exists i :: 0 <= i < |table| && table[i].0 == key
  }

  predicate NoneFound(bands: seq<Option<AreaBand>>)
  {
    forall k :: 0 <= k < |bands| ==> bands[k].None?
  }

  lemma AreaKeysDistinct()
    ensures forall j, k :: 0 <= j < 4 && 0 <= k < 4 && AreaKeys[j] == AreaKeys[k] ==> j == k
  {
    assert AreaKeys[0][0] == '일' && AreaKeys[1][0] == '청' && |AreaKeys[2]| == 5 && |AreaKeys[3]| == 3;
  }

  /** The table holds exactly the bands found, each under its own key. */
  lemma TableSpec(bands: seq<Option<AreaBand>>)
    requires |bands| == 4
    ensures Table(bands) == [] <==> NoneFound(bands)
    ensures forall i :: 0 <= i < |Table(bands)| ==>
      exists k :: 0 <= k < 4 && Table(bands)[i].0 == AreaKeys[k] && bands[k] == Some(Table(bands)[i].1)
    ensures forall k :: 0 <= k < 4 ==> (HasKey(Table(bands), AreaKeys[k]) <==> bands[k].Some?)
  {
    var t := Table(bands);
    forall i | 0 <= i < |t|
      ensures exists k :: 0 <= k < 4 && t[i].0 == AreaKeys[k] && bands[k] == Some(t[i].1)
    {
      var e := t[i];
      assert e in t;
      assert e in Entry(bands, 0) || e in Entry(bands, 1) || e in Entry(bands, 2) || e in Entry(bands, 3);
    }
    AreaKeysDistinct();
    forall k | 0 <= k < 4
      ensures HasKey(t, AreaKeys[k]) <==> bands[k].Some?
    {
      if bands[k].Some? {
        assert (AreaKeys[k], bands[k].value) in Entry(bands, k);
        assert (AreaKeys[k], bands[k].value) in t;
      }
      if HasKey(t, AreaKeys[k]) {
        var i :| 0 <= i < |t| && t[i].0 == AreaKeys[k];
        var j :| 0 <= j < 4 && t[i].0 == AreaKeys[j] && bands[j] == Some(t[i].1);
      }
    }
    if t == [] {
      assert forall k :: 0 <= k < 4 ==> Entry(bands, k) == [];
    }
  }

  /**
   * `_extract_area_criteria`: the bands the text states, each under its type's key; the
   * default table when it states none.
   */
  function ExtractAreaCriteria(text: string): (r: seq<(string, AreaBand)>)
    ensures |r| > 0
    ensures NoneFound(Bands(text)) ==> r == DefaultAreaCriteria
  {
    var bands := Bands(text);
    TableSpec(bands);
    var found := Table(bands);
    if found != [] then found else DefaultAreaCriteria
  }

  /**
   * When the text states some band, the area table holds exactly the bands it states,
   * each under its own type's key, and nothing else.
   */
  lemma AreaCriteriaFound(text: string, bands: seq<Option<AreaBand>>)
    requires bands == Bands(text) && !NoneFound(bands)
    ensures var r := ExtractAreaCriteria(text);
      (forall i :: 0 <= i < |r| ==> exists k :: 0 <= k < 4 && r[i].0 == AreaKeys[k] && bands[k] == Some(r[i].1))
      && forall k :: 0 <= k < 4 ==> (HasKey(r, AreaKeys[k]) <==> bands[k].Some?)
  {
    TableSpec(bands);
  }

  /** Type `k` has a band exactly when its band pattern occurs in the text. */
  lemma BandFound(text: string, k: nat)
    requires k < 4
    ensures Bands(text)[k].Some? <==> !Absent(AreaPattern(AreaHeads[k]), text)
  {
  }

  // ---------------------------------------------------------------- construction dates

  const ConstructionKey: string := "min_construction_start"
  const ApprovalKey: string := "min_approval_date"
  const OfficetelKey: string := "officetel_min_approval"

  /** A two-digit year is read as 20YY; others stay as written. */
  function CenturyYear(y: string): (r: string)
    ensures |y| == 2 ==> r == "20" + y
    ensures |y| != 2 ==> r == y
  {
    if |y| == 2 then "20" + y else y
  }

  /** The date of a construction criterion: the year read with `CenturyYear`, then month and day zero-padded. */
  function CenturyDate(year: string, month: string, day: string): (r: string)
    requires AllDigits(year) && AllDigits(month) && AllDigits(day)
    requires 2 <= |year| <= 4 && 1 <= |month| <= 2 && 1 <= |day| <= 2
    ensures |year| != 3 ==> IsoShaped(r)
    ensures |year| == 3 ==> DateShaped(r, 3)
    ensures |year| == 2 ==> r[..4] == "20" + year
    ensures |year| != 2 ==> r[..|year|] == year
  {
    var y := CenturyYear(year);
    assert AllDigits(y) by {
      if |year| == 2 {
        assert forall i :: 2 <= i < 4 ==> y[i] == year[i - 2];
      }
    }
    DateText(y, month, day)
  }

  /** The date the leftmost match of a construction-criterion pattern gives. */
  function CriterionDate(re: Regex, text: string): (r: Option<string>)
    requires DateGroups(re, 2)
    ensures r.None? <==> Absent(re, text)
    ensures r.Some? ==> IsoShaped(r.value) || DateShaped(r.value, 3)
  {
    var m := Search(re, text);
    SearchAbsent(re, text);
    if m.Some? then Some(CenturyDateOf(re, text, m.value)) else None
  }

  /** `CenturyDate` of the groups of a match of a construction-criterion pattern. */
  function CenturyDateOf(re: Regex, s: string, f: Found): (r: string)
    requires Matched(re, s, f) && ValidFound(s, f) && DateGroups(re, 2)
    ensures IsoShaped(r) || DateShaped(r, 3)
  {
    DigitGroupText(re, s, f, 1, 2, Some(4));
    DigitGroupText(re, s, f, 2, 1, Some(2));
    DigitGroupText(re, s, f, 3, 1, Some(2));
    CenturyDate(GroupText(s, f, 1), GroupText(s, f, 2), GroupText(s, f, 3))
  }

  /** A two-digit year in a construction criterion is read in the 2000s; a longer one as written. */
  lemma CriterionYear(re: Regex, text: string)
    requires DateGroups(re, 2) && !Absent(re, text)
    ensures Search(re, text).Some? && CriterionDate(re, text).Some?
    ensures var y := GroupText(text, Search(re, text).value, 1); var d := CriterionDate(re, text).value;
      (|y| == 2 ==> IsoShaped(d) && d[..4] == "20" + y) && (|y| == 4 ==> IsoShaped(d) && d[..4] == y)
      && (|y| == 3 ==> DateShaped(d, 3) && d[..3] == y)
  {
    SearchAbsent(re, text);
    var m := Search(re, text);
    DigitGroupText(re, text, m.value, 1, 2, Some(4));
    DigitGroupText(re, text, m.value, 2, 1, Some(2));
    DigitGroupText(re, text, m.value, 3, 1, Some(2));
  }

  /** The construction criteria used when the text states none. */
  const DefaultConstructionCriteria: map<string, string> :=
    map[ConstructionKey := "2009-01-01", ApprovalKey := "2015-01-01"]

  /**
   * `_extract_construction_criteria`: the earliest construction start after "착공일이/가" and
   * the earliest use approval after "사용승인일이/가"; the default dates when neither is stated.
   */
  function ExtractConstructionCriteria(text: string): (r: map<string, string>)
    ensures r != map[] && r.Keys <= {ConstructionKey, ApprovalKey} && OfficetelKey !in r
  {
    ConstructionGroups();
    Criteria(CriterionDate(ConstructionStartDate, text), CriterionDate(ApprovalDate, text))
  }

  lemma CriteriaDefaults(start: Regex, approval: Regex, text: string)
    requires DateGroups(start, 2) && DateGroups(approval, 2)
    ensures var r := Criteria(CriterionDate(start, text), CriterionDate(approval, text));
      (Absent(start, text) && Absent(approval, text) ==> r == DefaultConstructionCriteria)
  {
  }
  lemma CriteriaKeys(start: Regex, approval: Regex, text: string)
    requires DateGroups(start, 2) && DateGroups(approval, 2)
    ensures var r := Criteria(CriterionDate(start, text), CriterionDate(approval, text));
      (!(Absent(start, text) && Absent(approval, text)) ==>
        (ConstructionKey in r <==> !Absent(start, text)) && (ApprovalKey in r <==> !Absent(approval, text)))
  {
  }
  lemma CriteriaShapes(start: Regex, approval: Regex, text: string)
    requires DateGroups(start, 2) && DateGroups(approval, 2)
    ensures var r := Criteria(CriterionDate(start, text), CriterionDate(approval, text));
      (!(Absent(start, text) && Absent(approval, text)) ==>
        forall key :: key in r ==> IsoShaped(r[key]) || DateShaped(r[key], 3))
  {
  }

  /**
   * Without either criterion in the text the defaults apply; otherwise exactly the stated
   * criteria are present; every value is a date string.
   */
  lemma ConstructionCriteriaSpec(text: string)
    ensures var r := ExtractConstructionCriteria(text);
      Absent(ConstructionStartDate, text) && Absent(ApprovalDate, text) ==> r == DefaultConstructionCriteria
    ensures var r := ExtractConstructionCriteria(text);
      !(Absent(ConstructionStartDate, text) && Absent(ApprovalDate, text)) ==>
      (ConstructionKey in r <==> !Absent(ConstructionStartDate, text))
      && (ApprovalKey in r <==> !Absent(ApprovalDate, text))
    ensures var r := ExtractConstructionCriteria(text);
      forall key :: key in r ==> IsoShaped(r[key]) || DateShaped(r[key], 3)
  {
    ConstructionGroups();
    CriteriaDefaults(ConstructionStartDate, ApprovalDate, text);
    CriteriaKeys(ConstructionStartDate, ApprovalDate, text);
    CriteriaShapes(ConstructionStartDate, ApprovalDate, text);
  }

  /** `{"min_construction_start": c, "min_approval_date": a}` with the missing ones left out, or the defaults. */
  function Criteria(c: Option<string>, a: Option<string>): (r: map<string, string>)
    ensures r != map[] && r.Keys <= {ConstructionKey, ApprovalKey} && OfficetelKey !in r
    ensures c.None? && a.None? ==> r == DefaultConstructionCriteria
    ensures c.Some? || a.Some? ==> (ConstructionKey in r <==> c.Some?) && (ApprovalKey in r <==> a.Some?)
    ensures c.Some? ==> ConstructionKey in r && r[ConstructionKey] == c.value
    ensures a.Some? ==> ApprovalKey in r && r[ApprovalKey] == a.value
    ensures c.Some? || a.Some? ==> forall key :: key in r ==>
      (key == ConstructionKey && c.Some? && r[key] == c.value) || (key == ApprovalKey && a.Some? && r[key] == a.value)
  {
    assert OfficetelKey[0] != ConstructionKey[0] && OfficetelKey[0] != ApprovalKey[0];
    var m1: map<string, string> := if c.Some? then map[ConstructionKey := c.value] else map[];
    var m2 := if a.Some? then m1[ApprovalKey := a.value] else m1;
    assert c.Some? ==> ConstructionKey in m2;
    assert a.Some? ==> ApprovalKey in m2;
    assert ConstructionKey in DefaultConstructionCriteria;
    if c.Some? || a.Some? then m2 else DefaultConstructionCriteria
  }

  // ---------------------------------------------------------------- exclusion items

  /** `s` with its whitespace left out: what a reader sees of its words. */
  function NonSpace(s: string): (r: string)
    ensures |r| <= |s|
  {
    if s == [] then [] else (if IsSpace(s[0]) then [] else [s[0]]) + NonSpace(s[1..])
  }

  lemma {:induction false} NonSpaceConcat(a: string, b: string)
    ensures NonSpace(a + b) == NonSpace(a) + NonSpace(b)
  {
    if a == [] {
      assert a + b == b;
    } else {
      var x, t := a[0], a[1..];
      assert a == [x] + t;
      assert a + b == [x] + (t + b);
      NonSpaceConcat(t, b);
      if !IsSpace(x) {
        assert [x] + (NonSpace(t) + NonSpace(b)) == ([x] + NonSpace(t)) + NonSpace(b);
      }
    }
  }

  lemma {:induction false} NonSpaceOfSpaces(s: string)
    requires AllSpace(s)
    ensures NonSpace(s) == []
  {
    if s != [] {
      NonSpaceOfSpaces(s[1..]);
    }
  }

  /** Dropping leading whitespace keeps the words. */
  lemma StripLeftKeepsWords(s: string)
    ensures NonSpace(StripLeft(s)) == NonSpace(s)
  {
    var l := StripLeft(s);
    var lead := s[..|s| - |l|];
    assert s == lead + l;
    assert AllSpace(lead);
    NonSpaceConcat(lead, l);
    NonSpaceOfSpaces(lead);
  }

  /** Dropping trailing whitespace keeps the words. */
  lemma StripRightKeepsWords(s: string)
    ensures NonSpace(StripRight(s)) == NonSpace(s)
  {
    var r := StripRight(s);
    var trail := s[|r|..];
    assert s == r + trail;
    assert AllSpace(trail);
    NonSpaceConcat(r, trail);
    NonSpaceOfSpaces(trail);
  }

  /** Stripping removes only whitespace. */
  lemma StripKeepsWords(s: string)
    ensures NonSpace(Strip(s)) == NonSpace(s)
  {
    StripLeftKeepsWords(s);
    StripRightKeepsWords(StripLeft(s));
  }

  /** `re.sub(r'\s+', ' ', s)`: every run of whitespace becomes one space. */
  function CollapseSpaces(s: string): (r: string)
    ensures forall i :: 0 <= i < |r| && IsSpace(r[i]) ==> r[i] == ' '
    ensures SingleSpaced(r)
    ensures r == [] <==> s == []
    ensures r != [] ==> (IsSpace(r[0]) <==> IsSpace(s[0])) && (IsSpace(r[|r| - 1]) <==> IsSpace(s[|s| - 1]))
    decreases |s|
  {
    if s == [] then []
    else if IsSpace(s[0]) then
      var t := StripLeft(s[1..]);
      var c := CollapseSpaces(t);
      assert t == [] ==> AllSpace(s);
      assert t != [] ==> t[|t| - 1] == s[|s| - 1];
      " " + c
    else
      var c := CollapseSpaces(s[1..]);
      [s[0]] + c
  }

  /** Collapsing whitespace keeps every other character, in order. */
  lemma {:induction false} CollapseKeepsWords(s: string)
    ensures NonSpace(CollapseSpaces(s)) == NonSpace(s)
    decreases |s|
  {
    if s != [] {
      if IsSpace(s[0]) {
        var t := StripLeft(s[1..]);
        CollapseKeepsWords(t);
        NonSpaceConcat(" ", CollapseSpaces(t));
        assert s[1..] == s[1..][..|s[1..]| - |t|] + t;
        NonSpaceConcat(s[1..][..|s[1..]| - |t|], t);
        NonSpaceOfSpaces(s[1..][..|s[1..]| - |t|]);
      } else {
        CollapseKeepsWords(s[1..]);
        NonSpaceConcat([s[0]], CollapseSpaces(s[1..]));
      }
    }
  }

  /** Text whose only whitespace is single spaces between words. */
  predicate Tidy(c: string)
  {
    c != [] && !IsSpace(c[0]) && !IsSpace(c[|c| - 1])
    && (forall i :: 0 <= i < |c| && IsSpace(c[i]) ==> c[i] == ' ')
    && SingleSpaced(c)
  }

  /** No space is followed by another. */
  predicate SingleSpaced(c: string)
  {
    forall i, j :: 0 <= i && j == i + 1 < |c| && c[i] == ' ' ==> c[j] != ' '
  }

  /** `re.sub(r'\s+', ' ', content.strip())` */
  function TidyContent(content: string): (r: string)
    ensures r == [] <==> AllSpace(content)
    ensures r != [] ==> Tidy(r)
    ensures NonSpace(r) == NonSpace(content)
  {
    StripEmptyIff(content);
    StripKeepsWords(content);
    CollapseKeepsWords(Strip(content));
    CollapseSpaces(Strip(content))
  }

  /** An exclusion item: "(가) " and its tidied text. */
  predicate WellFormedItem(item: string)
  {
    |item| >= 5 && item[0] == '(' && '가' <= item[1] <= '힣' && item[2] == ')' && item[3] == ' ' && Tidy(item[4..])
  }

  /** `\(([가-힣])\)\s*([^(]*?)(?=\([가-힣]\)|$)` under DOTALL */
  const ItemPattern: Regex :=
    [Lit("("), Rep(Range('가', '힣'), 1, Some(1), false, Some(1)), Lit(")"), Spaces,
     Rep(NoneOf({'('}), 0, None, true, Some(2)),
     Ahead([[ALit("("), ARep(Range('가', '힣'), 1, Some(1)), ALit(")")], [AEnd]])]

  lemma ItemGroups()
    ensures HasGroup(ItemPattern, 1) && GroupIs(ItemPattern, 1, Range('가', '힣'), 1, Some(1))
    ensures HasGroup(ItemPattern, 2) && GroupIs(ItemPattern, 2, NoneOf({'('}), 0, None)
  {
    assert ItemPattern[1].group == Some(1) && ItemPattern[4].group == Some(2);
  }

  /** `f"({tag}) {content}"` */
  function FormatItem(tag: string, content: string): (r: string)
    requires |tag| == 1 && '가' <= tag[0] <= '힣' && Tidy(content)
    ensures WellFormedItem(r) && [r[1]] == tag && r[4..] == content
  {
    var r := "(" + tag + ") " + content;
    assert r[4..] == content;
    r
  }

  /** The label of a match of the item pattern is one Hangul syllable. */
  lemma ItemTag(text: string, f: Found)
    requires Matched(ItemPattern, text, f) && ValidFound(text, f)
    ensures var t := GroupText(text, f, 1); |t| == 1 && '가' <= t[0] <= '힣'
  {
    ItemGroups();
    GroupTextFits(ItemPattern, text, f, 1, Range('가', '힣'), 1, Some(1));
  }

  /** The item a match spells, "({label}) {content}", unless its content is blank. */
  function ItemOf(text: string, f: Found): (r: Option<string>)
    requires Matched(ItemPattern, text, f) && ValidFound(text, f)
    ensures r.None? <==> AllSpace(GroupText(text, f, 2))
    ensures r.Some? ==> WellFormedItem(r.value) && [r.value[1]] == GroupText(text, f, 1)
    ensures r.Some? ==> NonSpace(r.value[4..]) == NonSpace(GroupText(text, f, 2))
  {
    ItemTag(text, f);
    var content := TidyContent(GroupText(text, f, 2));
    if content == [] then None else Some(FormatItem(GroupText(text, f, 1), content))
  }

  /** The item of a match as a list: empty when its content is blank. */
  function ItemList(text: string, f: Found): (r: seq<string>)
    requires Matched(ItemPattern, text, f) && ValidFound(text, f)
    ensures |r| <= 1 && AllWellFormed(r)
  {
    var it := ItemOf(text, f);
    if it.Some? then [it.value] else []
  }

  /** Every one of `ms` is a match of the item pattern in `text`. */
  predicate ItemMatches(text: string, ms: seq<Found>)
  {
    forall k :: 0 <= k < |ms| ==> Matched(ItemPattern, text, ms[k]) && ValidFound(text, ms[k])
  }

  lemma WellFormedConcat(a: seq<string>, b: seq<string>)
    requires AllWellFormed(a) && AllWellFormed(b)
    ensures AllWellFormed(a + b)
  {
    assert forall i :: |a| <= i < |a + b| ==> (a + b)[i] == b[i - |a|];
  }

  lemma ItemMatchesSplit(text: string, ms: seq<Found>)
    requires ItemMatches(text, ms) && ms != []
    ensures Matched(ItemPattern, text, ms[0]) && ValidFound(text, ms[0])
    ensures ItemMatches(text, ms[1..])
  {
    assert forall k :: 0 <= k < |ms| - 1 ==> ms[1..][k] == ms[k + 1];
  }

  function ItemsOf(text: string, ms: seq<Found>): (r: seq<string>)
    requires ItemMatches(text, ms)
    ensures |r| <= |ms|
    ensures AllWellFormed(r)
  {
    if ms == [] then []
    else
      ItemMatchesSplit(text, ms);
      var head := ItemList(text, ms[0]);
      var rest := ItemsOf(text, ms[1..]);
      WellFormedConcat(head, rest);
      head + rest
  }

  /**
   * `_split_into_items`: one item per "(가)" label found, with its text up to the next label
   * tidied; labels with blank text give no item.
   */
  function SplitIntoItems(text: string): (r: seq<string>)
    ensures |r| <= |FindAll(ItemPattern, text)|
    ensures AllWellFormed(r)
  {
    ItemsOf(text, FindAll(ItemPattern, text))
  }

  // ---------------------------------------------------------------- exclusion sections

  /** `매입제외주택(.*?)(?=\d+\s*신청접수|\d+\s*매입가격|$)` under DOTALL */
  const ExclusionBlock: Regex :=
    [Lit("매입제외주택"), Rep(AnyChar, 0, None, true, Some(1)),
     Ahead([[ARep(Digit, 1, None), ARep(Space, 0, None), ALit("신청접수")],
            [ARep(Digit, 1, None), ARep(Space, 0, None), ALit("매입가격")],
            [AEnd]])]

  /** `①\s*주택\s*지리적[^②③]*` */
  const GeographicSection: Regex :=
    [Lit("①"), Spaces, Lit("주택"), Spaces, Lit("지리적"), Rep(NoneOf({'②', '③'}), 0, None, false, None)]

  /** `②\s*주택여건[^③]*` */
  const HousingSection: Regex :=
    [Lit("②"), Spaces, Lit("주택여건"), Rep(NoneOf({'③'}), 0, None, false, None)]

  /** `③\s*기타사항.*` under DOTALL */
  const OtherSection: Regex :=
    [Lit("③"), Spaces, Lit("기타사항"), Rep(AnyChar, 0, None, false, None)]

  /** The three lists of exclusion items: geographic, housing condition and other. */
  datatype ExclusionSections = ExclusionSections(geographic: seq<string>, housing: seq<string>, other: seq<string>)

  predicate AllWellFormed(items: seq<string>)
  {
    forall i :: 0 <= i < |items| ==> WellFormedItem(items[i])
  }

  /** The items of the leftmost match of a section pattern in `block`; none when it does not occur. */
  function SectionItems(re: Regex, block: string): (r: seq<string>)
    ensures Absent(re, block) ==> r == []
    ensures AllWellFormed(r)
  {
    var m := Search(re, block);
    SearchAbsent(re, block);
    if m.Some? then SplitIntoItems(MatchText(block, m.value)) else []
  }

  /**
   * `_extract_exclusion_sections`: the text between "매입제외주택" and the next numbered
   * "신청접수"/"매입가격" heading (or the end) is split into its three numbered sections.
   */
  function ExtractExclusionSections(text: string): (r: ExclusionSections)
    ensures AllWellFormed(r.geographic) && AllWellFormed(r.housing) && AllWellFormed(r.other)
  {
    var m := Search(ExclusionBlock, text);
    if m.None? then ExclusionSections([], [], [])
    else
      var block := GroupText(text, m.value, 1);
      ExclusionSections(SectionItems(GeographicSection, block), SectionItems(HousingSection, block),
        SectionItems(OtherSection, block))
  }

  /** Without a "매입제외주택" block all three sections are empty. */
  lemma NoExclusionBlock(text: string)
    requires Absent(ExclusionBlock, text)
    ensures ExtractExclusionSections(text) == ExclusionSections([], [], [])
  {
    SearchAbsent(ExclusionBlock, text);
  }

  /** `_convert_to_rules`: the sections are not read; the default rule list is returned. */
  function ConvertToRules(sections: ExclusionSections): (r: seq<ExclusionRule>)
    ensures r == DefaultRules()
  {
    DefaultRules()
  }

  // ---------------------------------------------------------------- the parsed announcement

  datatype ParsedAnnouncement = ParsedAnnouncement(
    title: string,
    region: string,
    announcementDate: string,
    applicationStart: string,
    applicationEnd: string,
    targetHousingTypes: seq<string>,
    minUnits: int,
    areaCriteria: seq<(string, AreaBand)>,
    constructionCriteria: map<string, string>,
    exclusionSections: ExclusionSections,
    extractedRules: seq<ExclusionRule>)

  function OrElse(o: Option<string>, d: string): (r: string)
    ensures o.Some? ==> r == o.value
    ensures o.None? ==> r == d
  {
    if o.Some? then o.value else d
  }

  /**
   * `parse_from_text(text, region)`; `today` is the clock's date as "%Y-%m-%d", used when
   * no announcement date is found.
   */
  function ParseFromText(text: string, region: string, today: string): (p: ParsedAnnouncement)
    ensures p.region == region
    ensures ExtractTitle(text).None? ==> p.title == region + "지역 기존주택 매입 공고"
    ensures IsoShaped(today) ==> IsoShaped(p.announcementDate)
    ensures p.applicationStart == [] || IsoShaped(p.applicationStart)
    ensures p.applicationEnd == [] || IsoShaped(p.applicationEnd)
    ensures |p.targetHousingTypes| > 0 && |p.areaCriteria| > 0
    ensures p.constructionCriteria != map[] && OfficetelKey !in p.constructionCriteria
  {
    var sections := ExtractExclusionSections(text);
    ParsedAnnouncement(
      OrElse(ExtractTitle(text), region + "지역 기존주택 매입 공고"),
      region,
      OrElse(ExtractDate(text, "공고"), today),
      OrElse(ExtractDate(text, "시작"), ""),
      OrElse(ExtractDate(text, "마감"), ""),
      ExtractHousingTypes(text),
      ExtractMinUnits(text),
      ExtractAreaCriteria(text),
      ExtractConstructionCriteria(text),
      sections,
      ConvertToRules(sections))
  }

  /** The rules of a parsed announcement are the default rules, whatever the text. */
  lemma ParsedRules(text: string, region: string, today: string)
    ensures ParseFromText(text, region, today).extractedRules == DefaultRules()
  {
  }

  /** `dict.get(key, default)` */
  function Get(m: map<string, string>, key: string, default: string): (r: string)
    ensures key in m ==> r == m[key]
    ensures key !in m ==> r == default
  {
    if key in m then m[key] else default
  }

  /** `f"{date.replace('-', '')}_{region}"` */
  function ConfigIdOf(date: string, region: string): string
  {
    Without(date, {'-'}) + "_" + region
  }

  /**
   * `create_config_from_parsed(parsed, useDefaultRules)`; `now` is the clock's ISO
   * timestamp.
   */
  function CreateConfigFromParsed(p: ParsedAnnouncement, useDefaultRules: bool, now: string): (c: AnnouncementConfig)
    ensures c.announcementId == ConfigIdOf(p.announcementDate, p.region)
    ensures c.region == p.region && c.announcementDate == p.announcementDate
    ensures c.maxExclusiveArea == 85.0 && c.minUnits == p.minUnits && c.areaByType == p.areaCriteria
    ensures c.exclusionRules == if useDefaultRules then DefaultRules() else p.extractedRules
    ensures c.minConstructionStart == Get(p.constructionCriteria, ConstructionKey, "2009-01-01")
    ensures c.minApprovalDate == Get(p.constructionCriteria, ApprovalKey, "2015-01-01")
    ensures c.officetelMinApproval == Get(p.constructionCriteria, OfficetelKey, "2010-01-01")
  {
    AnnouncementConfig(
      ConfigIdOf(p.announcementDate, p.region),
      p.title, p.region, p.announcementDate, p.applicationStart, p.applicationEnd,
      p.minUnits, 85.0,
      Get(p.constructionCriteria, ConstructionKey, "2009-01-01"),
      Get(p.constructionCriteria, ApprovalKey, "2015-01-01"),
      Get(p.constructionCriteria, OfficetelKey, "2010-01-01"),
      p.areaCriteria,
      if useDefaultRules then DefaultRules() else p.extractedRules,
      now, now, "")
  }

  /** A string of digits has no dash to remove. */
  lemma DigitsWithoutDash(s: string)
    requires AllDigits(s)
    ensures Without(s, {'-'}) == s
  {
    WithoutNoop(s, {'-'});
  }

  /** Removing the dashes of "Y-M-D" from digit strings leaves "YMD". */
  lemma DashesRemoved(y: string, m: string, d: string)
    requires AllDigits(y) && AllDigits(m) && AllDigits(d)
    ensures Without(y + "-" + m + "-" + d, {'-'}) == y + m + d
  {
    assert y + "-" + m + "-" + d == y + ("-" + m) + ("-" + d);
    WithoutConcat(y + ("-" + m), "-" + d, {'-'});
    WithoutConcat(y, "-" + m, {'-'});
    WithoutConcat("-", m, {'-'});
    WithoutConcat("-", d, {'-'});
    DigitsWithoutDash(y);
    DigitsWithoutDash(m);
    DigitsWithoutDash(d);
    assert Without("-", {'-'}) == [];
  }

  /** For a "YYYY-MM-DD" date the config id is "YYYYMMDD_" followed by the region. */
  lemma ConfigIdShape(date: string, region: string)
    requires IsoShaped(date)
    ensures var id := ConfigIdOf(date, region);
      id == date[..4] + date[5..7] + date[8..] + "_" + region
      && |id| == 9 + |region| && AllDigits(id[..8]) && id[8] == '_' && id[9..] == region
  {
    var y, m, d := date[..4], date[5..7], date[8..];
    assert date == y + "-" + m + "-" + d;
    assert AllDigits(y) && AllDigits(m) && AllDigits(d) by {
      assert forall i :: 0 <= i < 4 ==> y[i] == date[i];
      assert forall i :: 0 <= i < 2 ==> m[i] == date[5 + i] && d[i] == date[8 + i];
    }
    DashesRemoved(y, m, d);
    var id := y + m + d + "_" + region;
    assert id[..8] == y + m + d;
    assert id[9..] == region;
  }

  /**
   * A config made from a parsed announcement carries the default rules whether or not the
   * default rules were asked for.
   */
  lemma ParsedConfigRules(p: ParsedAnnouncement, useDefaultRules: bool, now: string)
    requires p.extractedRules == DefaultRules()
    ensures CreateConfigFromParsed(p, useDefaultRules, now).exclusionRules == DefaultRules()
  {
  }

  /**
   * A config made from a parsed announcement always has the default officetel approval date,
   * a non-empty area table and the 85 m² ceiling.
   */
  lemma ParsedConfigDefaults(text: string, region: string, today: string, useDefaultRules: bool, now: string)
    ensures var c := CreateConfigFromParsed(ParseFromText(text, region, today), useDefaultRules, now);
      c.officetelMinApproval == "2010-01-01" && |c.areaByType| > 0 && c.maxExclusiveArea == 85.0
  {
  }
}
