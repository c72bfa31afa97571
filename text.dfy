/**
 * String primitives the Python code uses implicitly: `in` on strings, `.lower()`,
 * `.strip()`, `.strip(chars)`, `.find`, `.split`, `.replace(c, "")`, `"".join`, string `<`,
 * `dict.fromkeys` de-duplication.
 * Strings are `seq<char>`; lower-casing is ASCII-only (Hangul has no case).
 */
module Text {
  import opened Wrappers

  // ---------------------------------------------------------------- characters

  /** The characters Python's `str.isspace()` (and regex `\s`) accepts. */
  predicate IsSpace(c: char)
  {
    c == ' ' || c == '\t' || c == '\n' || c == '\r' || c == '\U{000B}' || c == '\U{000C}'
    || ('\U{001C}' <= c <= '\U{001F}') || c == '\U{0085}' || c == '\U{00A0}' || c == '\U{1680}'
    || ('\U{2000}' <= c <= '\U{200A}') || c == '\U{2028}' || c == '\U{2029}' || c == '\U{202F}'
    || c == '\U{205F}' || c == '\U{3000}'
  }

  predicate IsDigit(c: char) { '0' <= c <= '9' }

  function DigitValue(c: char): (r: nat)
    requires IsDigit(c)
    ensures r < 10
  {
    c as int - '0' as int
  }

  function LowerChar(c: char): (r: char)
    ensures 'A' <= c <= 'Z' ==> 'a' <= r <= 'z' && r as int == c as int + 32
    ensures !('A' <= c <= 'Z') ==> r == c
  {
    if 'A' <= c <= 'Z' then (c as int + 32) as char else c
  }

  // ---------------------------------------------------------------- lower

  /** `s.lower()` */
  function Lower(s: string): (r: string)
    ensures |r| == |s|
    ensures forall i :: 0 <= i < |s| ==> r[i] == LowerChar(s[i])
  {
    if s == [] then [] else [LowerChar(s[0])] + Lower(s[1..])
  }

  lemma LowerIdempotent(s: string)
    ensures Lower(Lower(s)) == Lower(s)
  {
  }

  lemma LowerConcat(a: string, b: string)
    ensures Lower(a + b) == Lower(a) + Lower(b)
  {
  }

  /** A string with no upper-case ASCII letter is its own lower-case form. */
  predicate IsLowerCase(s: string) { forall i :: 0 <= i < |s| ==> !('A' <= s[i] <= 'Z') }

  lemma LowerOfLowerCase(s: string)
    requires IsLowerCase(s)
    ensures Lower(s) == s
  {
  }

  // ---------------------------------------------------------------- substring

  predicate IsPrefix(p: string, s: string) { |p| <= |s| && p == s[..|p|] }

  /** Python's `t in s` for strings. */
  predicate Contains(s: string, t: string)
    decreases |s|
  {
    IsPrefix(t, s) || (|s| > 0 && Contains(s[1..], t))
  }

  predicate OccursAt(s: string, t: string, i: int)
  {
    0 <= i && i + |t| <= |s| && s[i..i + |t|] == t
  }

  /** `Contains` agrees with the positional definition of a substring. */
  lemma {:induction false} ContainsIff(s: string, t: string)
    ensures Contains(s, t) <==> exists i :: OccursAt(s, t, i)
    decreases |s|
  {
    if |s| > 0 {
      ContainsIff(s[1..], t);
    }
    if Contains(s, t) {
      if IsPrefix(t, s) {
        assert s[0..|t|] == s[..|t|];
        assert OccursAt(s, t, 0);
      } else {
        var i :| OccursAt(s[1..], t, i);
        assert s[1..][i..i + |t|] == s[i + 1..i + 1 + |t|];
        assert OccursAt(s, t, i + 1);
      }
    }
    if exists i :: OccursAt(s, t, i) {
      var i :| OccursAt(s, t, i);
      if i == 0 {
        assert s[0..|t|] == s[..|t|];
      } else {
        assert s[1..][i - 1..i - 1 + |t|] == s[i..i + |t|];
        assert OccursAt(s[1..], t, i - 1);
      }
    }
  }

  lemma ContainsEmpty(s: string)
    ensures Contains(s, "")
  {
    assert IsPrefix("", s);
  }

  lemma {:induction false} ContainsSelfConcat(a: string, t: string, b: string)
    ensures Contains(a + t + b, t)
  {
    ContainsIff(a + t + b, t);
    assert (a + t + b)[|a|..|a| + |t|] == t;
    assert OccursAt(a + t + b, t, |a|);
  }

  /** A substring of a string's substring is a substring of the string. */
  lemma {:induction false} ContainsTrans(s: string, t: string, u: string)
    requires Contains(s, t) && Contains(t, u)
    ensures Contains(s, u)
  {
    ContainsIff(s, t);
    ContainsIff(t, u);
    ContainsIff(s, u);
    var i :| OccursAt(s, t, i);
    var j :| OccursAt(t, u, j);
    forall k | 0 <= k < |u|
      ensures s[i + j + k] == u[k]
    {
      assert u[k] == t[j + k];
      assert t[j + k] == s[i + j + k];
    }
    assert s[i + j..i + j + |u|] == u;
    assert OccursAt(s, u, i + j);
  }

  /** `any(k in s for k in keys)` */
  predicate ContainsAny(s: string, keys: seq<string>)
  {
    exists k :: k in keys && Contains(s, k)
  }

  /** Index of the first key (in list order) found in `s`, as a scan of `keys` would find it. */
  function FirstHit(s: string, keys: seq<string>): (r: int)
    ensures -1 <= r < |keys|
    ensures r >= 0 ==> Contains(s, keys[r]) && forall j :: 0 <= j < r ==> !Contains(s, keys[j])
    ensures r == -1 <==> !ContainsAny(s, keys)
  {
    if keys == [] then -1
    else if Contains(s, keys[0]) then 0
    else
      var t := FirstHit(s, keys[1..]);
      assert forall k :: k in keys[1..] ==> k in keys;
      assert forall k :: k in keys && k != keys[0] ==> k in keys[1..];
      if t == -1 then -1 else t + 1
  }

  // ---------------------------------------------------------------- strip

  function StripLeft(s: string): (r: string)
    ensures |r| <= |s| && r == s[|s| - |r|..]
    ensures r == [] || !IsSpace(r[0])
    ensures forall i :: 0 <= i < |s| - |r| ==> IsSpace(s[i])
  {
    if |s| > 0 && IsSpace(s[0]) then
      var r := StripLeft(s[1..]);
      assert forall i :: 1 <= i < |s| - |r| ==> s[i] == s[1..][i - 1];
      r
    else s
  }

  function StripRight(s: string): (r: string)
    ensures |r| <= |s| && r == s[..|r|]
    ensures r == [] || !IsSpace(r[|r| - 1])
    ensures forall i :: |r| <= i < |s| ==> IsSpace(s[i])
  {
    if |s| > 0 && IsSpace(s[|s| - 1]) then
      var r := StripRight(s[..|s| - 1]);
      assert forall i :: |r| <= i < |s| - 1 ==> s[i] == s[..|s| - 1][i];
      r
    else s
  }

  /** `s.strip()` */
  function Strip(s: string): (r: string)
    ensures |r| <= |s|
    ensures NoEdgeSpace(r)
  {
    StripRight(StripLeft(s))
  }

  /** No whitespace at either end. */
  predicate NoEdgeSpace(s: string)
  {
    s == [] || (!IsSpace(s[0]) && !IsSpace(s[|s| - 1]))
  }

  predicate AllSpace(s: string) { forall i :: 0 <= i < |s| ==> IsSpace(s[i]) }

  lemma StripLeftAllSpace(s: string)
    requires AllSpace(s)
    ensures StripLeft(s) == []
  {
  }

  /** `not s.strip()`: a string strips to nothing exactly when it is all whitespace. */
  lemma StripEmptyIff(s: string)
    ensures Strip(s) == [] <==> AllSpace(s)
  {
    var l := StripLeft(s);
    if AllSpace(s) {
      StripLeftAllSpace(s);
    }
    if Strip(s) == [] {
      assert forall i :: 0 <= i < |l| ==> IsSpace(l[i]);
      assert l == [];
    }
  }

  /** A string without whitespace at either end is its own strip. */
  lemma StripNoEdgeSpace(s: string)
    requires NoEdgeSpace(s)
    ensures Strip(s) == s
  {
    assert StripLeft(s) == s;
    assert StripRight(s) == s;
  }

  lemma StripLeadingSpace(s: string)
    requires s != [] && IsSpace(s[0])
    ensures Strip(s) == Strip(s[1..])
  {
  }

  /** One leading space before a word without edge spaces is stripped away. */
  lemma StripSpacePrefix(w: string)
    requires w != [] && !IsSpace(w[0]) && !IsSpace(w[|w| - 1])
    ensures Strip(" " + w) == w
  {
    StripLeadingSpace(" " + w);
    assert (" " + w)[1..] == w;
    StripNoEdgeSpace(w);
  }

  /** Stripping twice changes nothing. */
  lemma StripIdempotent(s: string)
    ensures Strip(Strip(s)) == Strip(s)
  {
    var r := Strip(s);
    assert StripLeft(r) == r;
    assert StripRight(r) == r;
  }

  // ---------------------------------------------------------------- filtering

  /** `s` with every character of `drop` removed (chained `.replace(c, "")`). */
  function Without(s: string, drop: set<char>): (r: string)
    ensures |r| <= |s|
    ensures forall i :: 0 <= i < |r| ==> r[i] !in drop
    ensures forall c :: c in r ==> c in s
  {
    if s == [] then []
    else if s[0] in drop then Without(s[1..], drop)
    else [s[0]] + Without(s[1..], drop)
  }

  lemma {:induction false} WithoutNoop(s: string, drop: set<char>)
    requires forall i :: 0 <= i < |s| ==> s[i] !in drop
    ensures Without(s, drop) == s
  {
    if s != [] {
      WithoutNoop(s[1..], drop);
    }
  }

  lemma {:induction false} WithoutConcat(a: string, b: string, drop: set<char>)
    ensures Without(a + b, drop) == Without(a, drop) + Without(b, drop)
  {
    if a == [] {
      assert a + b == b;
    } else {
      var x, t := a[0], a[1..];
      assert a == [x] + t;
      assert a + b == [x] + (t + b);
      WithoutConcat(t, b, drop);
      if x !in drop {
        assert [x] + (Without(t, drop) + Without(b, drop)) == ([x] + Without(t, drop)) + Without(b, drop);
      }
    }
  }

  /** Removing the same characters again changes nothing. */
  lemma WithoutIdempotent(s: string, drop: set<char>)
    ensures Without(Without(s, drop), drop) == Without(s, drop)
  {
    WithoutNoop(Without(s, drop), drop);
  }

  /** The ASCII digits of `s`, in order (`re.sub(r"\D", "", s)`). */
  function Digits(s: string): (r: string)
    ensures |r| <= |s|
    ensures forall i :: 0 <= i < |r| ==> IsDigit(r[i])
  {
    if s == [] then []
    else if IsDigit(s[0]) then [s[0]] + Digits(s[1..])
    else Digits(s[1..])
  }

  lemma {:induction false} DigitsOfDigits(s: string)
    requires forall i :: 0 <= i < |s| ==> IsDigit(s[i])
    ensures Digits(s) == s
  {
    if s != [] {
      DigitsOfDigits(s[1..]);
    }
  }

  lemma DigitsConcat(a: string, b: string)
    ensures Digits(a + b) == Digits(a) + Digits(b)
  {
    if a == [] {
      assert a + b == b;
    } else {
      assert (a + b)[1..] == a[1..] + b;
      DigitsConcat(a[1..], b);
    }
  }

  predicate AllDigits(s: string) { forall i :: 0 <= i < |s| ==> IsDigit(s[i]) }

  /** `int(s)` for a string of ASCII digits. */
  function NatOf(s: string): (r: nat)
    requires AllDigits(s)
  {
    if s == [] then 0 else NatOf(s[..|s| - 1]) * 10 + DigitValue(s[|s| - 1])
  }

  lemma {:induction false} NatOfBound(s: string)
    requires AllDigits(s)
    ensures NatOf(s) < Pow10(|s|)
  {
    if s != [] {
      NatOfBound(s[..|s| - 1]);
    }
  }

  function Pow10(n: nat): (r: nat)
    ensures r >= 1
  {
    if n == 0 then 1 else 10 * Pow10(n - 1)
  }

  /** `str(n)` for a natural number: decimal digits without leading zeros. */
  function NatToString(n: nat): (r: string)
    ensures |r| >= 1 && AllDigits(r)
    ensures |r| > 1 ==> r[0] != '0'
    decreases n
  {
    var c := ('0' as int + n % 10) as char;
    if n < 10 then [c] else NatToString(n / 10) + [c]
  }

  /** Reading back the printed digits gives the number. */
  lemma {:induction false} NatToStringRoundTrip(n: nat)
    ensures NatOf(NatToString(n)) == n
    decreases n
  {
    var r := NatToString(n);
    var c := ('0' as int + n % 10) as char;
    if n < 10 {
      assert r[..0] == [];
    } else {
      NatToStringRoundTrip(n / 10);
      assert r[..|r| - 1] == NatToString(n / 10);
    }
  }

  /** `str(i)` for any integer. */
  function IntToString(i: int): (r: string)
    ensures i >= 0 ==> r == NatToString(i)
    ensures i < 0 ==> r == "-" + NatToString(-i)
  {
    if i >= 0 then NatToString(i) else "-" + NatToString(-i)
  }

  /** Up to `n` decimal digits of the fraction `f`, stopping once the rest is zero. */
  function FractionDigits(f: real, n: nat): (r: string)
    requires 0.0 <= f < 1.0
    ensures |r| <= n && AllDigits(r)
    ensures f == 0.0 ==> r == []
    decreases n
  {
    if n == 0 || f == 0.0 then []
    else
      var d := (f * 10.0).Floor;
      [('0' as int + d) as char] + FractionDigits(f * 10.0 - d as real, n - 1)
  }

  /**
   * `str(x)` for a float whose shortest decimal form has at most six fractional digits:
   * the integer part, a point, and the fractional digits ("0" when there are none). Longer
   * fractions are cut to six digits, and no exponent form is produced.
   */
  function FloatText(x: real): (r: string)
    ensures x == (x.Floor as real) && x >= 0.0 ==> r == NatToString(x.Floor) + ".0"
  {
    var a := if x < 0.0 then -x else x;
    var frac := FractionDigits(a - a.Floor as real, 6);
    (if x < 0.0 then "-" else "") + NatToString(a.Floor) + "." + (if frac == [] then "0" else frac)
  }

  /**
   * `f"{x:.1f}"`, rounding the exact value half away from zero. Python rounds the binary
   * double half to even, so an exact tie such as 42.25 prints one tenth higher here.
   */
  function Fmt1(x: real): string
  {
    var a := if x < 0.0 then -x else x;
    var t := (a * 10.0 + 0.5).Floor;
    (if x < 0.0 then "-" else "") + NatToString(t / 10) + "." + NatToString(t % 10)
  }

  /** `s.endswith(t)` */
  predicate EndsWith(s: string, t: string) { |t| <= |s| && s[|s| - |t|..] == t }

  /** A slice of a string is a substring of it. */
  lemma ContainsSlice(s: string, a: nat, b: nat)
    requires a <= b <= |s|
    ensures Contains(s, s[a..b])
  {
    ContainsSelfConcat(s[..a], s[a..b], s[b..]);
    assert s[..a] + s[a..b] + s[b..] == s;
  }

  /** A suffix is a substring. */
  lemma EndsWithContains(s: string, t: string)
    requires EndsWith(s, t)
    ensures Contains(s, t)
  {
    ContainsSlice(s, |s| - |t|, |s|);
  }

  // ---------------------------------------------------------------- joining

  /** `sep.join(parts)` */
  function Join(parts: seq<string>, sep: string): (r: string)
    ensures parts == [] ==> r == []
    ensures |parts| == 1 ==> r == parts[0]
  {
    if parts == [] then []
    else if |parts| == 1 then parts[0]
    else parts[0] + sep + Join(parts[1..], sep)
  }

  /** Every part occurs in the joined string. */
  lemma {:induction false} JoinContainsPart(parts: seq<string>, sep: string, k: nat)
    requires k < |parts|
    ensures Contains(Join(parts, sep), parts[k])
  {
    if |parts| == 1 {
      ContainsSelfConcat([], parts[0], []);
      assert [] + parts[0] + [] == parts[0];
    } else if k == 0 {
      ContainsSelfConcat([], parts[0], sep + Join(parts[1..], sep));
      assert [] + parts[0] + (sep + Join(parts[1..], sep)) == Join(parts, sep);
    } else {
      JoinContainsPart(parts[1..], sep, k - 1);
      ContainsSelfConcat(parts[0] + sep, Join(parts[1..], sep), []);
      assert parts[0] + sep + Join(parts[1..], sep) + [] == Join(parts, sep);
      ContainsTrans(Join(parts, sep), Join(parts[1..], sep), parts[k]);
    }
  }

  // ---------------------------------------------------------------- find and split

  /** Occurrences in `s` are those at 0 and those in `s[1..]`, shifted by one. */
  lemma OccursShift(s: string, t: string)
    requires s != []
    ensures OccursAt(s, t, 0) <==> IsPrefix(t, s)
    ensures forall j :: 1 <= j ==> (OccursAt(s, t, j) <==> OccursAt(s[1..], t, j - 1))
  {
    if |t| <= |s| {
      assert s[0..|t|] == s[..|t|];
    }
    forall j | 1 <= j
      ensures OccursAt(s, t, j) <==> OccursAt(s[1..], t, j - 1)
    {
      OccursShiftAt(s, t, j);
    }
  }

  /** One index of `OccursShift`. */
  lemma OccursShiftAt(s: string, t: string, j: int)
    requires s != [] && 1 <= j
    ensures OccursAt(s, t, j) <==> OccursAt(s[1..], t, j - 1)
  {
    var r := s[1..];
    assert |r| == |s| - 1;
    if j + |t| <= |s| {
      assert j - 1 + |t| <= |r|;
      assert s[j..j + |t|] == r[j - 1..j - 1 + |t|];
    } else {
      assert !OccursAt(s, t, j);
      assert !OccursAt(r, t, j - 1);
    }
  }

  /** `s.find(t)`, with None for -1. */
  function Find(s: string, t: string): (r: Option<nat>)
    ensures r.None? <==> !Contains(s, t)
    ensures r.Some? ==> OccursAt(s, t, r.value) && forall j :: 0 <= j < r.value ==> !OccursAt(s, t, j)
    decreases |s|
  {
    if IsPrefix(t, s) then
      assert s[0..|t|] == s[..|t|];
      Some(0)
    else if s == [] then None
    else
      var rest := Find(s[1..], t);
      OccursShift(s, t);
      if rest.None? then None else Some(rest.value + 1)
  }

  /** The text before the first occurrence of `t` does not contain `t`. */
  lemma BeforeFirstOccurrence(s: string, t: string, k: nat)
    requires t != [] && k <= |s| && forall j :: 0 <= j < k ==> !OccursAt(s, t, j)
    ensures !Contains(s[..k], t)
  {
    ContainsIff(s[..k], t);
    forall j | 0 <= j && j + |t| <= k
      ensures !OccursAt(s[..k], t, j)
    {
      assert j < k && !OccursAt(s, t, j);
      assert s[..k][j..j + |t|] == s[j..j + |t|];
    }
  }

  /** `s.split(sep)` for a non-empty separator. */
  function Split(s: string, sep: string): (r: seq<string>)
    requires sep != []
    ensures |r| >= 1
    ensures |r| >= 2 <==> Contains(s, sep)
    ensures forall i :: 0 <= i < |r| ==> !Contains(r[i], sep)
    ensures Join(r, sep) == s
    decreases |s|
  {
    match Find(s, sep)
    case None => [s]
    case Some(k) =>
      BeforeFirstOccurrence(s, sep, k);
      var rest := Split(s[k + |sep|..], sep);
      assert s[..k] + sep + s[k + |sep|..] == s;
      [s[..k]] + rest
  }

  /** The text after the first occurrence of `sep`: the second half of `s.split(sep, 1)`. */
  function After(s: string, sep: string): (r: string)
    requires sep != [] && Contains(s, sep)
    ensures Split(s, sep)[0] + sep + r == s
    ensures Join(Split(s, sep)[1..], sep) == r
  {
    s[Find(s, sep).value + |sep|..]
  }

  /** One mismatching character rules out an occurrence at `i`. */
  lemma NotAt(s: string, t: string, i: nat, k: nat)
    requires k < |t| && (i + k >= |s| || s[i + k] != t[k])
    ensures !OccursAt(s, t, i)
  {
    if i + |t| <= |s| {
      assert s[i..i + |t|][k] == s[i + k];
    }
  }

  /** A string lacking one of `t`'s characters does not contain `t`. */
  lemma MissingChar(s: string, t: string, k: nat)
    requires k < |t| && t[k] !in s
    ensures !Contains(s, t)
  {
    ContainsIff(s, t);
    forall i | 0 <= i && i + |t| <= |s|
      ensures !OccursAt(s, t, i)
    {
      assert s[i + k] in s;
      NotAt(s, t, i, k);
    }
  }

  /** `t` cannot occur in `p + w + q` across an edge when its first character is not in `p` and its last not in `q`. */
  lemma EnclosedBy(p: string, w: string, q: string, t: string)
    requires t != [] && t[0] !in p && t[|t| - 1] !in q && !Contains(w, t)
    ensures !Contains(p + w + q, t)
  {
    var s := p + w + q;
    ContainsIff(s, t);
    ContainsIff(w, t);
    forall i | 0 <= i && i + |t| <= |s|
      ensures !OccursAt(s, t, i)
    {
      if i < |p| {
        assert s[i] == p[i];
        NotAt(s, t, i, 0);
      } else if i + |t| > |p| + |w| {
        assert s[i + |t| - 1] == q[i + |t| - 1 - |p| - |w|];
        NotAt(s, t, i, |t| - 1);
      } else {
        assert s[i..i + |t|] == w[i - |p|..i - |p| + |t|];
        assert !OccursAt(w, t, i - |p|);
      }
    }
  }

  /**
   * The same when `p` may hold the first characters of `t`: it lacks `t[k]`, and none of its
   * last `k` characters starts `t`.
   */
  lemma EnclosedAt(p: string, w: string, q: string, t: string, k: nat)
    requires k < |t| && t[k] !in p && t[|t| - 1] !in q && !Contains(w, t)
    requires forall j :: 1 <= j <= k && j <= |p| ==> p[|p| - j..] != t[..j]
    ensures !Contains(p + w + q, t)
  {
    var s := p + w + q;
    ContainsIff(s, t);
    ContainsIff(w, t);
    forall i | 0 <= i && i + |t| <= |s|
      ensures !OccursAt(s, t, i)
    {
      if i + k < |p| {
        assert s[i + k] == p[i + k];
        NotAt(s, t, i, k);
      } else if i < |p| {
        var j := |p| - i;
        assert p[|p| - j..] != t[..j];
        forall n | i <= n < |p|
          ensures s[n] == p[n]
        {
        }
        assert s[i..i + |t|][..j] == p[|p| - j..];
      } else if i + |t| > |p| + |w| {
        assert s[i + |t| - 1] == q[i + |t| - 1 - |p| - |w|];
        NotAt(s, t, i, |t| - 1);
      } else {
        assert s[i..i + |t|] == w[i - |p|..i - |p| + |t|];
        assert !OccursAt(w, t, i - |p|);
      }
    }
  }

  /** An occurrence with none before it is what `find` returns. */
  lemma FindAt(s: string, t: string, k: nat)
    requires OccursAt(s, t, k) && forall i :: 0 <= i < k ==> !OccursAt(s, t, i)
    ensures Find(s, t) == Some(k)
  {
    ContainsIff(s, t);
  }

  /** A string without the separator splits into itself alone. */
  lemma SplitNone(s: string, sep: string)
    requires sep != [] && !Contains(s, sep)
    ensures Split(s, sep) == [s]
  {
  }

  /** A separator found at `k`, and absent after it, splits the string in two. */
  lemma SplitAt(s: string, sep: string, k: nat)
    requires sep != [] && Find(s, sep) == Some(k) && !Contains(s[k + |sep|..], sep)
    ensures Split(s, sep) == [s[..k], s[k + |sep|..]]
  {
    SplitNone(s[k + |sep|..], sep);
  }

  /**
   * `(a + sep + b).split(sep) == [a, b]` when `b` lacks the separator and some character of
   * the separator occurs neither in `a` nor earlier in the separator.
   */
  lemma SplitInTwo(a: string, sep: string, b: string, m: nat)
    requires m < |sep| && sep[m] !in a && sep[m] !in sep[..m] && !Contains(b, sep)
    ensures Split(a + sep + b, sep) == [a, b]
  {
    var s := a + sep + b;
    assert s[|a|..|a| + |sep|] == sep;
    forall i | 0 <= i < |a|
      ensures !OccursAt(s, sep, i)
    {
      if i + m < |a| {
        assert s[i + m] == a[i + m];
      } else {
        assert s[i + m] == sep[i + m - |a|] == sep[..m][i + m - |a|];
      }
      NotAt(s, sep, i, m);
    }
    FindAt(s, sep, |a|);
    assert s[|a| + |sep|..] == b;
    assert s[..|a|] == a;
    SplitAt(s, sep, |a|);
  }

  // ---------------------------------------------------------------- strip(chars)

  function StripCharsLeft(s: string, cs: set<char>): (r: string)
    ensures |r| <= |s| && r == s[|s| - |r|..]
    ensures r == [] || r[0] !in cs
    ensures forall i :: 0 <= i < |s| - |r| ==> s[i] in cs
  {
    if |s| > 0 && s[0] in cs then StripCharsLeft(s[1..], cs) else s
  }

  function StripCharsRight(s: string, cs: set<char>): (r: string)
    ensures |r| <= |s| && r == s[..|r|]
    ensures r == [] || r[|r| - 1] !in cs
    ensures forall i :: |r| <= i < |s| ==> s[i] in cs
  {
    if |s| > 0 && s[|s| - 1] in cs then StripCharsRight(s[..|s| - 1], cs) else s
  }

  /** `s.strip(chars)` */
  function StripChars(s: string, cs: set<char>): (r: string)
    ensures |r| <= |s|
    ensures r == [] || (r[0] !in cs && r[|r| - 1] !in cs)
  {
    StripCharsRight(StripCharsLeft(s, cs), cs)
  }

  /** A string whose ends are outside `cs` is left alone by `strip(cs)`. */
  lemma StripCharsNoop(s: string, cs: set<char>)
    requires s == [] || (s[0] !in cs && s[|s| - 1] !in cs)
    ensures StripChars(s, cs) == s
  {
  }

  /** `strip(cs)` removes one enclosing pair of characters from `cs` around a word. */
  lemma StripCharsEnclosed(q: char, w: string, cs: set<char>)
    requires q in cs && w != [] && w[0] !in cs && w[|w| - 1] !in cs
    ensures StripChars([q] + w + [q], cs) == w
  {
    var s := [q] + w + [q];
    assert s[1..] == w + [q];
    assert StripCharsLeft(s, cs) == StripCharsLeft(w + [q], cs);
    assert StripCharsLeft(w + [q], cs) == w + [q];
    assert (w + [q])[..|w + [q]| - 1] == w;
    assert StripCharsRight(w + [q], cs) == StripCharsRight(w, cs);
  }

  // ---------------------------------------------------------------- ordering

  /** Python's `a < b` on strings: code point by code point, a proper prefix first. */
  predicate StrLess(a: string, b: string)
    decreases |a|
  {
    if b == [] then false
    else if a == [] then true
    else if a[0] != b[0] then a[0] < b[0]
    else StrLess(a[1..], b[1..])
  }

  lemma {:induction false} StrLessIrreflexive(a: string)
    ensures !StrLess(a, a)
    decreases |a|
  {
    if a != [] {
      StrLessIrreflexive(a[1..]);
    }
  }

  /** Of two different strings exactly one is the smaller. */
  lemma {:induction false} StrLessTrichotomy(a: string, b: string)
    ensures a != b ==> (StrLess(a, b) <==> !StrLess(b, a))
    ensures a == b ==> !StrLess(a, b)
    decreases |a|
  {
    if a == b {
      StrLessIrreflexive(a);
    } else if a != [] && b != [] && a[0] == b[0] {
      assert a == [a[0]] + a[1..] && b == [b[0]] + b[1..];
      StrLessTrichotomy(a[1..], b[1..]);
    }
  }

  // ---------------------------------------------------------------- de-duplication

  /** `list(dict.fromkeys(xs))`: first occurrences, in order. */
  function Dedup<T(==)>(xs: seq<T>): (r: seq<T>)
    ensures |r| <= |xs|
  {
    if xs == [] then []
    else
      var d := Dedup(xs[..|xs| - 1]);
      if xs[|xs| - 1] in d then d else d + [xs[|xs| - 1]]
  }

  predicate NoDuplicates<T(==)>(xs: seq<T>)
  {
    forall i, j :: 0 <= i < j < |xs| ==> xs[i] != xs[j]
  }

  /** De-duplication keeps exactly the distinct elements, each once. */
  lemma {:induction false} DedupSpec<T>(xs: seq<T>)
    ensures forall x :: x in Dedup(xs) <==> x in xs
    ensures NoDuplicates(Dedup(xs))
  {
    if xs != [] {
      var init := xs[..|xs| - 1];
      DedupSpec(init);
      assert xs == init + [xs[|xs| - 1]];
    }
  }

  /** Appending an element adds it to the de-duplication exactly when it is new. */
  lemma DedupSnoc<T>(xs: seq<T>, x: T)
    ensures Dedup(xs + [x]) == if x in xs then Dedup(xs) else Dedup(xs) + [x]
  {
    assert (xs + [x])[..|xs|] == xs;
    DedupSpec(xs);
  }

  /** A list without repeats is its own de-duplication. */
  lemma {:induction false} DedupOfDistinct<T>(xs: seq<T>)
    requires NoDuplicates(xs)
    ensures Dedup(xs) == xs
  {
    if xs != [] {
      var init := xs[..|xs| - 1];
      DedupOfDistinct(init);
      DedupSpec(init);
      assert xs[|xs| - 1] !in init;
      assert init + [xs[|xs| - 1]] == xs;
    }
  }

  lemma DedupIdempotent<T>(xs: seq<T>)
    ensures Dedup(Dedup(xs)) == Dedup(xs)
  {
    DedupSpec(xs);
    DedupOfDistinct(Dedup(xs));
  }

  lemma DedupEmptyIff<T>(xs: seq<T>)
    ensures Dedup(xs) == [] <==> xs == []
  {
    DedupSpec(xs);
    if xs != [] {
      assert xs[0] in xs;
    }
  }
}
