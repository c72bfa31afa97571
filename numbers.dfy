/**
 * Reading numbers out of text as the analysers do: Python's `float()` on strings made of
 * digits, points and minus signs, and `re.search(r"[\d.]+", s)` for the first run of
 * digits and points.
 */
module Numbers {
  import opened Wrappers
  import opened Text

  /** Index of the first '.' in `s`, or `|s|` when there is none. */
  function DotIndex(s: string): (k: nat)
    ensures k <= |s|
    ensures k < |s| ==> s[k] == '.'
    ensures forall i :: 0 <= i < k ==> s[i] != '.'
  {
    if s == [] then 0
    else if s[0] == '.' then 0
    else 1 + DotIndex(s[1..])
  }

  function IntegerPart(s: string): string { s[..DotIndex(s)] }

  function FractionPart(s: string): string
  {
    var k := DotIndex(s);
    if k < |s| then s[k + 1..] else []
  }

  /** Digits with at most one point and at least one digit: what `float()` reads unsigned. */
  predicate IsDecimal(s: string)
  {
    AllDigits(IntegerPart(s)) && AllDigits(FractionPart(s))
    && |IntegerPart(s)| + |FractionPart(s)| >= 1
  }

  function DecimalValue(s: string): (r: real)
    requires IsDecimal(s)
    ensures r >= 0.0
  {
    var f := FractionPart(s);
    NatOf(IntegerPart(s)) as real + NatOf(f) as real / Pow10(|f|) as real
  }

  /**
   * `float(s)` for a string over digits, '.' and '-': an optional leading minus, then a
   * decimal; anything else (several points, a minus inside, no digit) is a ValueError.
   */
  function ParseFloat(s: string): (r: Option<real>)
    ensures r.Some? && (s == [] || s[0] != '-') ==> r.value >= 0.0
    ensures s == [] ==> r.None?
    ensures "." == s || "-" == s ==> r.None?
  {
    if |s| > 0 && s[0] == '-' then
      (if IsDecimal(s[1..]) then Some(-DecimalValue(s[1..])) else None)
    else if IsDecimal(s) then Some(DecimalValue(s))
    else None
  }

  /** `str(n)` of a natural number is read back by `float` as that number. */
  lemma ParseFloatOfNat(n: nat)
    ensures ParseFloat(NatToString(n)) == Some(n as real)
  {
    var s := NatToString(n);
    NoDotInDigits(s);
    assert IntegerPart(s) == s;
    assert FractionPart(s) == [];
    NatToStringRoundTrip(n);
  }

  lemma NoDotInDigits(s: string)
    requires AllDigits(s)
    ensures DotIndex(s) == |s|
  {
    if DotIndex(s) < |s| {
      assert false;
    }
  }

  /** The longest prefix of `s` made of characters of `cls`. */
  function TakeWhile(s: string, cls: set<char>): (r: string)
    ensures |r| <= |s| && r == s[..|r|]
    ensures forall i :: 0 <= i < |r| ==> r[i] in cls
    ensures |r| < |s| ==> s[|r|] !in cls
  {
    if s == [] || s[0] !in cls then [] else [s[0]] + TakeWhile(s[1..], cls)
  }

  /** `re.search("[cls]+", s).group()`, or "" when no character of `cls` occurs. */
  function FirstRun(s: string, cls: set<char>): (r: string)
    ensures r == [] <==> forall i :: 0 <= i < |s| ==> s[i] !in cls
    ensures forall i :: 0 <= i < |r| ==> r[i] in cls
  {
    if s == [] then []
    else if s[0] in cls then TakeWhile(s, cls)
    else FirstRun(s[1..], cls)
  }

  /** The ASCII digits and the point: the class `[\d.]`. */
  const DigitsAndPoint: set<char> := {'0', '1', '2', '3', '4', '5', '6', '7', '8', '9', '.'}

  /** `re.findall(r"\d+", s)`: the maximal digit runs, in order. */
  function DigitRuns(s: string): (r: seq<string>)
    ensures forall k :: 0 <= k < |r| ==> r[k] != [] && AllDigits(r[k])
    decreases |s|
  {
    var digitSet := {'0', '1', '2', '3', '4', '5', '6', '7', '8', '9'};
    if s == [] then []
    else if !IsDigit(s[0]) then DigitRuns(s[1..])
    else
      var run := TakeWhile(s, digitSet);
      assert forall i :: 0 <= i < |run| ==> IsDigit(run[i]);
      [run] + DigitRuns(s[|run|..])
  }
}
