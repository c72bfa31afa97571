/**
 * A backtracking regular-expression engine for the patterns of the announcement parser:
 * literals, repetitions of one character class (greedy or lazy, optionally captured as a
 * numbered group), the two readings of `$`, and lookaheads made of simple atoms. Matching
 * is case-sensitive, as `re.search` without IGNORECASE is. The engine tries candidates in
 * the order Python's engine does, so the first match it reports is the one `re.search`
 * reports.
 */
module Regex {
  import opened Wrappers
  import opened Text

  /** A character class. */
  datatype CharClass =
    | AnyChar                   // `.` under DOTALL
    | NotNewline                // `.` without DOTALL, and `[^\n]`
    | Space                     // `\s`
    | NotSpace                  // `\S`
    | Digit                     // `\d`
    | Range(lo: char, hi: char) // `[가-힣]`
    | OneOf(chars: set<char>)   // `[...]`
    | SpaceOr(chars: set<char>) // `[.\s]`
    | NoneOf(chars: set<char>)  // `[^...]`

  predicate InClass(c: char, cls: CharClass)
  {
    match cls
    case AnyChar => true
    case NotNewline => c != '\n'
    case Space => IsSpace(c)
    case NotSpace => !IsSpace(c)
    case Digit => IsDigit(c)
    case Range(lo, hi) => lo <= c <= hi
    case OneOf(chars) => c in chars
    case SpaceOr(chars) => IsSpace(c) || c in chars
    case NoneOf(chars) => c !in chars
  }

  /** `w` occurs at position `i` of `s`. */
  predicate LitAt(s: string, i: nat, w: string)
  {
    i + |w| <= |s| && s[i..i + |w|] == w
  }

  /** `$` without MULTILINE: the end of the text, or just before a newline that ends it. */
  predicate AtTextEnd(s: string, i: nat)
  {
    i == |s| || (i + 1 == |s| && s[i] == '\n')
  }

  /** `$` with MULTILINE: the end of the text or of a line. */
  predicate AtLineEnd(s: string, i: nat)
  {
    i == |s| || (i < |s| && s[i] == '\n')
  }

  /** The span `[a, b)` of `s` is a run of `cls` whose length lies between `lo` and `hi`. */
  predicate Fits(s: string, a: nat, b: nat, cls: CharClass, lo: nat, hi: Option<nat>)
  {
    a <= b <= |s| && lo <= b - a && (hi.Some? ==> b - a <= hi.value)
    && forall k :: a <= k < b ==> InClass(s[k], cls)
  }

  /** The length of the run of `cls` characters at `i`, at most `limit`. */
  function RunLength(s: string, i: nat, cls: CharClass, limit: nat): (n: nat)
    requires i <= |s|
    ensures i + n <= |s| && n <= limit
    ensures forall k :: i <= k < i + n ==> InClass(s[k], cls)
    ensures n < limit && i + n < |s| ==> !InClass(s[i + n], cls)
    decreases limit
  {
    if limit == 0 || i == |s| || !InClass(s[i], cls) then 0
    else 1 + RunLength(s, i + 1, cls, limit - 1)
  }

  function Ascending(lo: nat, hi: nat): (r: seq<nat>)
    ensures forall k :: 0 <= k < |r| ==> lo <= r[k] <= hi
    ensures lo <= hi ==> |r| > 0 && r[0] == lo
    decreases hi - lo
  {
    if lo > hi then [] else [lo] + Ascending(lo + 1, hi)
  }

  function Descending(hi: nat, lo: nat): (r: seq<nat>)
    ensures forall k :: 0 <= k < |r| ==> lo <= r[k] <= hi
    ensures lo <= hi ==> |r| > 0 && r[0] == hi
    decreases hi - lo
  {
    if lo > hi then [] else [hi] + (if hi == 0 then [] else Descending(hi - 1, lo))
  }

  /**
   * The ends a repetition can reach from `i`, in the order the engine tries them: shortest
   * first when lazy, longest first when greedy.
   */
  function Ends(s: string, i: nat, cls: CharClass, lo: nat, hi: Option<nat>, lazy: bool): (r: seq<nat>)
    requires i <= |s|
    ensures forall k :: 0 <= k < |r| ==> Fits(s, i, r[k], cls, lo, hi)
  {
    var limit := if hi.Some? && hi.value < |s| - i then hi.value else |s| - i;
    var n := RunLength(s, i, cls, limit);
    if n < lo then []
    else if lazy then Ascending(i + lo, i + n)
    else Descending(i + n, i + lo)
  }

  /** One step of a lookahead: a literal, a repetition, or `$` without MULTILINE. */
  datatype Atom = ALit(w: string) | ARep(cls: CharClass, lo: nat, hi: Option<nat>) | AEnd

  /** The atoms match at `i` in some way; a lookahead needs no particular one. */
  predicate AtomsAt(atoms: seq<Atom>, s: string, i: nat)
    requires i <= |s|
    decreases |atoms|
  {
    if atoms == [] then true
    else
      match atoms[0]
      case ALit(w) => LitAt(s, i, w) && AtomsAt(atoms[1..], s, i + |w|)
      case AEnd => AtTextEnd(s, i) && AtomsAt(atoms[1..], s, i)
      case ARep(cls, lo, hi) =>
        exists j :: i <= j <= |s| && Fits(s, i, j, cls, lo, hi) && AtomsAt(atoms[1..], s, j)
  }

  /** `(?=a|b|...)`: some alternative matches at `i`. */
  predicate AheadAt(alts: seq<seq<Atom>>, s: string, i: nat)
    requires i <= |s|
  {
    exists k :: 0 <= k < |alts| && AtomsAt(alts[k], s, i)
  }

  /** One element of a pattern. */
  datatype Item =
    | Lit(w: string)
    | Rep(cls: CharClass, lo: nat, hi: Option<nat>, lazy: bool, group: Option<nat>)
    | LineEnd
    | TextEnd
    | Ahead(alts: seq<seq<Atom>>)

  type Regex = seq<Item>

  /** The spans recorded for the numbered groups. */
  type Captures = map<nat, (nat, nat)>

  predicate SpansIn(caps: Captures, n: nat)
  {
    forall g :: g in caps ==> caps[g].0 <= caps[g].1 <= n
  }

  /** Some repetition of `re` numbered `g` fits the span. */
  predicate GroupFits(re: Regex, g: nat, s: string, span: (nat, nat))
  {
    exists k :: 0 <= k < |re| && re[k].Rep? && re[k].group == Some(g)
      && Fits(s, span.0, span.1, re[k].cls, re[k].lo, re[k].hi)
  }

  /** Every numbered repetition of `re` has its group recorded. */
  predicate AllGroupsIn(re: Regex, caps: Captures)
  {
    forall k :: 0 <= k < |re| && re[k].Rep? && re[k].group.Some? ==> re[k].group.value in caps
  }

  /** What a pattern's tail says about groups and captures holds of the whole pattern. */
  lemma FromTail(re: Regex, s: string, caps: Captures)
    requires |re| > 0
    ensures forall g, span :: GroupFits(re[1..], g, s, span) ==> GroupFits(re, g, s, span)
    ensures AllGroupsIn(re[1..], caps) && !(re[0].Rep? && re[0].group.Some?) ==> AllGroupsIn(re, caps)
    ensures AllGroupsIn(re[1..], caps) && re[0].Rep? && re[0].group.Some? && re[0].group.value in caps
      ==> AllGroupsIn(re, caps)
  {
    forall g: nat, span: (nat, nat) | GroupFits(re[1..], g, s, span)
      ensures GroupFits(re, g, s, span)
    {
      var k :| 0 <= k < |re[1..]| && re[1..][k].Rep? && re[1..][k].group == Some(g)
        && Fits(s, span.0, span.1, re[1..][k].cls, re[1..][k].lo, re[1..][k].hi);
      assert re[k + 1] == re[1..][k];
    }
    assert forall k :: 1 <= k < |re| ==> re[k] == re[1..][k - 1];
  }

  /**
   * The first way `re` matches `s` from position `i`, as a backtracking engine finds it: the
   * end of the match and the group spans, starting from those already recorded in `caps`.
   */
  function MatchAt(re: Regex, s: string, i: nat, caps: Captures): (r: Option<(nat, Captures)>)
    requires i <= |s| && SpansIn(caps, |s|)
    ensures r.Some? ==> i <= r.value.0 <= |s| && SpansIn(r.value.1, |s|)
    decreases |re|, 1, 0
  {
    if re == [] then Some((i, caps))
    else
      match re[0]
      case Lit(w) => if LitAt(s, i, w) then MatchAt(re[1..], s, i + |w|, caps) else None
      case LineEnd => if AtLineEnd(s, i) then MatchAt(re[1..], s, i, caps) else None
      case TextEnd => if AtTextEnd(s, i) then MatchAt(re[1..], s, i, caps) else None
      case Ahead(alts) => if AheadAt(alts, s, i) then MatchAt(re[1..], s, i, caps) else None
      case Rep(cls, lo, hi, lazy, group) =>
        TryEach(re[0], re[1..], s, i, Ends(s, i, cls, lo, hi, lazy), caps)
  }

  /**
   * Tries the rest of the pattern after the repetition `item` from each candidate end in
   * turn, recording the group of `item`; the first success wins.
   */
  function TryEach(item: Item, rest: Regex, s: string, i: nat, ends: seq<nat>, caps: Captures)
    : (r: Option<(nat, Captures)>)
    requires item.Rep?
    requires i <= |s| && SpansIn(caps, |s|)
    requires forall k :: 0 <= k < |ends| ==> Fits(s, i, ends[k], item.cls, item.lo, item.hi)
    ensures r.Some? ==> i <= r.value.0 <= |s| && SpansIn(r.value.1, |s|)
    decreases |rest| + 1, 0, |ends|
  {
    if ends == [] then None
    else
      assert Fits(s, i, ends[0], item.cls, item.lo, item.hi);
      var caps' := if item.group.Some? then caps[item.group.value := (i, ends[0])] else caps;
      var m := MatchAt(rest, s, ends[0], caps');
      if m.Some? then m else TryEach(item, rest, s, i, ends[1..], caps)
  }

  /**
   * The groups `out` of a match of `re` over `caps`: those of `caps` are kept or else fit a
   * repetition of `re` with that number, and every numbered repetition of `re` is recorded.
   */
  predicate GroupsFrom(re: Regex, s: string, caps: Captures, out: Captures)
  {
    caps.Keys <= out.Keys
    && (forall g :: g in out ==> (g in caps && out[g] == caps[g]) || GroupFits(re, g, s, out[g]))
    && AllGroupsIn(re, out)
  }

  /** The groups of a match of `re` are the ones its repetitions capture. */
  lemma {:induction false} MatchAtGroups(re: Regex, s: string, i: nat, caps: Captures)
    requires i <= |s| && SpansIn(caps, |s|)
    ensures var r := MatchAt(re, s, i, caps); r.Some? ==> GroupsFrom(re, s, caps, r.value.1)
    decreases |re|, 1, 0
  {
    if re != [] {
      match re[0]
      case Lit(w) =>
        if LitAt(s, i, w) {
          TailGroups(re, s, i + |w|, caps);
        }
      case LineEnd =>
        if AtLineEnd(s, i) {
          TailGroups(re, s, i, caps);
        }
      case TextEnd =>
        if AtTextEnd(s, i) {
          TailGroups(re, s, i, caps);
        }
      case Ahead(alts) =>
        if AheadAt(alts, s, i) {
          TailGroups(re, s, i, caps);
        }
      case Rep(cls, lo, hi, lazy, group) =>
        assert [re[0]] + re[1..] == re;
        TryEachGroups(re[0], re[1..], s, i, Ends(s, i, cls, lo, hi, lazy), caps);
    }
  }

  /** A pattern that starts with an element capturing nothing has the groups of its tail. */
  lemma {:induction false} TailGroups(re: Regex, s: string, j: nat, caps: Captures)
    requires |re| > 0 && !re[0].Rep?
    requires j <= |s| && SpansIn(caps, |s|)
    ensures var m := MatchAt(re[1..], s, j, caps); m.Some? ==> GroupsFrom(re, s, caps, m.value.1)
    decreases |re|, 0, 0
  {
    MatchAtGroups(re[1..], s, j, caps);
    var m := MatchAt(re[1..], s, j, caps);
    if m.Some? {
      FromTail(re, s, m.value.1);
    }
  }

  lemma {:induction false} TryEachGroups(item: Item, rest: Regex, s: string, i: nat, ends: seq<nat>, caps: Captures)
    requires item.Rep?
    requires i <= |s| && SpansIn(caps, |s|)
    requires forall k :: 0 <= k < |ends| ==> Fits(s, i, ends[k], item.cls, item.lo, item.hi)
    ensures var r := TryEach(item, rest, s, i, ends, caps); r.Some? ==> GroupsFrom([item] + rest, s, caps, r.value.1)
    decreases |rest| + 1, 0, |ends|
  {
    if ends != [] {
      assert Fits(s, i, ends[0], item.cls, item.lo, item.hi);
      var caps' := if item.group.Some? then caps[item.group.value := (i, ends[0])] else caps;
      var m := MatchAt(rest, s, ends[0], caps');
      var re := [item] + rest;
      assert re[1..] == rest;
      if m.Some? {
        MatchAtGroups(rest, s, ends[0], caps');
        FromTail(re, s, m.value.1);
        assert item.group.Some? ==> GroupFits(re, item.group.value, s, (i, ends[0]));
      } else {
        TryEachGroups(item, rest, s, i, ends[1..], caps);
      }
    }
  }

  /** A match: where it starts and ends, and the group spans. */
  datatype Found = Found(start: nat, end: nat, caps: Captures)

  predicate ValidFound(s: string, f: Found)
  {
    f.start <= f.end <= |s| && SpansIn(f.caps, |s|)
  }

  /** `re` matches `s` at `f.start` first as `f` says. */
  predicate Matched(re: Regex, s: string, f: Found)
  {
    f.start <= |s| && MatchAt(re, s, f.start, map[]) == Some((f.end, f.caps))
  }

  /** No position from `a` up to but excluding `b` starts a match. */
  predicate NoMatchIn(re: Regex, s: string, a: nat, b: nat)
  {
    forall j :: a <= j < b && j <= |s| ==> MatchAt(re, s, j, map[]).None?
  }

  /** `re.search(re, s[i:])` in terms of positions of `s`: the leftmost start from `i` on. */
  function SearchFrom(re: Regex, s: string, i: nat): (r: Option<Found>)
    requires i <= |s|
    ensures r.Some? ==> i <= r.value.start && ValidFound(s, r.value) && Matched(re, s, r.value)
    decreases |s| - i
  {
    var m := MatchAt(re, s, i, map[]);
    if m.Some? then Some(Found(i, m.value.0, m.value.1))
    else if i == |s| then None
    else SearchFrom(re, s, i + 1)
  }

  /** The match `SearchFrom` finds is the leftmost one; when it finds none, no position from `i` on starts one. */
  lemma {:induction false} SearchFromLeftmost(re: Regex, s: string, i: nat)
    requires i <= |s|
    ensures var r := SearchFrom(re, s, i);
      (r.Some? ==> NoMatchIn(re, s, i, r.value.start)) && (r.None? ==> NoMatchIn(re, s, i, |s| + 1))
    decreases |s| - i
  {
    var m := MatchAt(re, s, i, map[]);
    if m.Some? {
      assert SearchFrom(re, s, i) == Some(Found(i, m.value.0, m.value.1));
    } else if i == |s| {
      assert SearchFrom(re, s, i).None?;
    } else {
      assert SearchFrom(re, s, i) == SearchFrom(re, s, i + 1);
      SearchFromLeftmost(re, s, i + 1);
    }
  }

  /** `re.search(re, s)` */
  function Search(re: Regex, s: string): (r: Option<Found>)
    ensures r.Some? ==> ValidFound(s, r.value) && Matched(re, s, r.value)
  {
    SearchFrom(re, s, 0)
  }

  /** `re.search` finds the leftmost match, and finds none only when no position starts one. */
  lemma SearchLeftmost(re: Regex, s: string)
    ensures var r := Search(re, s);
      (r.Some? ==> NoMatchIn(re, s, 0, r.value.start)) && (r.None? ==> NoMatchIn(re, s, 0, |s| + 1))
  {
    SearchFromLeftmost(re, s, 0);
  }

  /** The groups of a match are recorded, and each fits the repetition that captured it. */
  lemma MatchedGroups(re: Regex, s: string, f: Found)
    requires Matched(re, s, f)
    ensures AllGroupsIn(re, f.caps)
    ensures forall g :: g in f.caps ==> GroupFits(re, g, s, f.caps[g])
  {
    MatchAtGroups(re, s, f.start, map[]);
  }

  /** `match.group(0)` */
  function MatchText(s: string, f: Found): (r: string)
    requires ValidFound(s, f)
    ensures |r| == f.end - f.start
  {
    s[f.start..f.end]
  }

  /** `match.group(g)`, or "" for a group the match did not record. */
  function GroupText(s: string, f: Found, g: nat): (r: string)
    requires ValidFound(s, f)
  {
    if g in f.caps then s[f.caps[g].0..f.caps[g].1] else ""
  }

  /** Every repetition of `re` numbered `g` is a repetition of `cls` between `lo` and `hi`. */
  predicate GroupIs(re: Regex, g: nat, cls: CharClass, lo: nat, hi: Option<nat>)
  {
    forall k :: 0 <= k < |re| && re[k].Rep? && re[k].group == Some(g) ==>
      re[k].cls == cls && re[k].lo == lo && re[k].hi == hi
  }

  /** Some repetition of `re` is numbered `g`. */
  predicate HasGroup(re: Regex, g: nat)
  {
    exists k :: 0 <= k < |re| && re[k].Rep? && re[k].group == Some(g)
  }

  /** The text of group `g` of a match is a run of the class that `g` repeats, of a length within its bounds. */
  lemma GroupTextFits(re: Regex, s: string, f: Found, g: nat, cls: CharClass, lo: nat, hi: Option<nat>)
    requires Matched(re, s, f) && ValidFound(s, f)
    requires HasGroup(re, g) && GroupIs(re, g, cls, lo, hi)
    ensures var t := GroupText(s, f, g);
      lo <= |t| && (hi.Some? ==> |t| <= hi.value) && forall j :: 0 <= j < |t| ==> InClass(t[j], cls)
  {
    MatchedGroups(re, s, f);
    var k :| 0 <= k < |re| && re[k].Rep? && re[k].group == Some(g);
    assert g in f.caps;
    var span := f.caps[g];
    var j :| 0 <= j < |re| && re[j].Rep? && re[j].group == Some(g)
      && Fits(s, span.0, span.1, re[j].cls, re[j].lo, re[j].hi);
    var t := GroupText(s, f, g);
    assert forall x :: 0 <= x < |t| ==> t[x] == s[span.0 + x];
  }

  /** The position after a match where `findall` goes on: one further when the match was empty. */
  function NextStart(f: Found): nat
  {
    if f.end > f.start then f.end else f.start + 1
  }

  /**
   * `re.findall`/`re.finditer` from position `i`: each match is the leftmost from where the
   * previous one ended.
   */
  function FindAllFrom(re: Regex, s: string, i: nat): (r: seq<Found>)
    requires i <= |s|
    ensures forall k :: 0 <= k < |r| ==> ValidFound(s, r[k]) && i <= r[k].start && Matched(re, s, r[k])
    ensures forall j, k :: 0 <= j && k == j + 1 < |r| ==> NextStart(r[j]) <= r[k].start
    decreases |s| - i
  {
    var f := SearchFrom(re, s, i);
    if f.None? then []
    else
      var next := NextStart(f.value);
      if next > |s| then [f.value]
      else
        var rest := FindAllFrom(re, s, next);
        assert forall k :: 1 <= k < |[f.value] + rest| ==> ([f.value] + rest)[k] == rest[k - 1];
        [f.value] + rest
  }

  /** No match starts before the first match `findall` reports, nor after the last. */
  lemma {:induction false} FindAllEnds(re: Regex, s: string, i: nat)
    requires i <= |s|
    ensures var r := FindAllFrom(re, s, i);
      (r == [] ==> NoMatchIn(re, s, i, |s| + 1))
      && (|r| > 0 ==> NoMatchIn(re, s, i, r[0].start) && NoMatchIn(re, s, NextStart(r[|r| - 1]), |s| + 1))
    decreases |s| - i
  {
    SearchFromLeftmost(re, s, i);
    var f := SearchFrom(re, s, i);
    if f.Some? {
      var next := NextStart(f.value);
      if next <= |s| {
        var rest := FindAllFrom(re, s, next);
        FindAllEnds(re, s, next);
        var r := [f.value] + rest;
        assert FindAllFrom(re, s, i) == r;
        if rest != [] {
          assert r[|r| - 1] == rest[|rest| - 1];
        }
      }
    }
  }

  /** `findall` misses no match between one match and the next. */
  lemma {:induction false} FindAllGaps(re: Regex, s: string, i: nat)
    requires i <= |s|
    ensures var r := FindAllFrom(re, s, i);
      forall j, k :: 0 <= j && k == j + 1 < |r| ==> NoMatchIn(re, s, NextStart(r[j]), r[k].start)
    decreases |s| - i
  {
    var f := SearchFrom(re, s, i);
    if f.Some? {
      var next := NextStart(f.value);
      if next <= |s| {
        var rest := FindAllFrom(re, s, next);
        FindAllGaps(re, s, next);
        FindAllEnds(re, s, next);
        var r := [f.value] + rest;
        assert FindAllFrom(re, s, i) == r;
        forall j, k | 0 <= j && k == j + 1 < |r|
          ensures NoMatchIn(re, s, NextStart(r[j]), r[k].start)
        {
          assert r[k] == rest[j];
          if j > 0 {
            assert r[j] == rest[j - 1];
          }
        }
      }
    }
  }

  /** `re.findall(re, s)` as matches. */
  function FindAll(re: Regex, s: string): (r: seq<Found>)
    ensures forall k :: 0 <= k < |r| ==> ValidFound(s, r[k]) && Matched(re, s, r[k])
    ensures forall j, k :: 0 <= j && k == j + 1 < |r| ==> r[j].end <= r[k].start
  {
    FindAllFrom(re, s, 0)
  }
}
