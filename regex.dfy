/**
 * The regular expressions the core uses, each written out as a predicate "the pattern
 * matches at position p", with re.search's leftmost-match semantics and the greedy
 * quantifiers resolved by hand.
 */
module Regex {
  import opened Wrappers
  import opened Text

  datatype Pattern =
    | DigitRun       // (\d+)
    | FourDigits     // (\d{4})
    | MonthSuffix    // (\d{1,2})\s*월
    | YearSepMonth   // (\d{4})\s*[-/.]\s*(\d{1,2})
    | YearDashMonth  // \d{4}-\d{2}

  predicate DigitsAt(t: string, p: nat, n: nat) {
    p + n <= |t| && forall k :: p <= k < p + n ==> IsDigit(t[k])
  }

  /** Where a greedy \s* that starts at p stops. */
  function SkipSpaces(t: string, p: nat): (e: nat)
    requires p <= |t|
    decreases |t| - p
    ensures p <= e <= |t|
    ensures forall k :: p <= k < e ==> IsSpace(t[k])
    ensures e < |t| ==> !IsSpace(t[e])
  {
    if p < |t| && IsSpace(t[p]) then SkipSpaces(t, p + 1) else p
  }

  /** Where a greedy \d+ that starts at p stops. */
  function RunEnd(t: string, p: nat): (e: nat)
    requires p <= |t|
    decreases |t| - p
    ensures p <= e <= |t|
    ensures forall k :: p <= k < e ==> IsDigit(t[k])
    ensures e < |t| ==> !IsDigit(t[e])
  {
    if p < |t| && IsDigit(t[p]) then RunEnd(t, p + 1) else p
  }

  /** Where a greedy \d{1,2} that starts at a digit p stops: after two digits when there are two. */
  function OneOrTwoDigitsEnd(t: string, p: nat): nat
    requires DigitsAt(t, p, 1)
  {
    if DigitsAt(t, p + 1, 1) then p + 2 else p + 1
  }

  /**
   * The pattern matches at p. For MonthSuffix, when two digits are there the greedy \d{1,2}
   * takes both, and backing off to one digit cannot help: the next character is then a digit,
   * which neither \s nor '월' matches. The \s* before '[-/.]', before '월' and before the
   * month digits never needs to back off either, as none of those characters is whitespace.
   */
  predicate MatchAt(pat: Pattern, t: string, p: nat) {
    match pat
    case DigitRun => DigitsAt(t, p, 1)
    case FourDigits => DigitsAt(t, p, 4)
    case MonthSuffix =>
      && DigitsAt(t, p, 1)
      && var k := SkipSpaces(t, OneOrTwoDigitsEnd(t, p));
      && k < |t| && t[k] == '월'
    case YearSepMonth =>
      && DigitsAt(t, p, 4)
      && var k := SkipSpaces(t, p + 4);
      && k < |t| && t[k] in "-/."
      && DigitsAt(t, SkipSpaces(t, k + 1), 1)
    case YearDashMonth =>
      && DigitsAt(t, p, 4)
      && p + 4 < |t| && t[p + 4] == '-'
      && DigitsAt(t, p + 5, 2)
  }

  /** The pattern matches at p and nowhere before p. */
  predicate FirstMatch(pat: Pattern, t: string, p: nat) {
    MatchAt(pat, t, p) && forall q :: 0 <= q < p ==> !MatchAt(pat, t, q)
  }

  predicate NoMatch(pat: Pattern, t: string) {
    forall q :: 0 <= q < |t| ==> !MatchAt(pat, t, q)
  }

  /** re.search: the leftmost position at or after `from` where the pattern matches. */
  function Search(pat: Pattern, t: string, from: nat): (r: Option<nat>)
    requires from <= |t|
    decreases |t| - from
    ensures r.Some? ==> from <= r.value < |t| && MatchAt(pat, t, r.value)
    ensures r.Some? ==> forall q :: from <= q < r.value ==> !MatchAt(pat, t, q)
    ensures r.None? ==> forall q :: from <= q < |t| ==> !MatchAt(pat, t, q)
  {
    if from == |t| then None
    else if MatchAt(pat, t, from) then Some(from)
    else Search(pat, t, from + 1)
  }

  /** The text of group 1 of a match at p. */
  function Group1(pat: Pattern, t: string, p: nat): (g: string)
    requires MatchAt(pat, t, p) && !pat.YearDashMonth?
    ensures g != [] && AllDigits(g)
  {
    match pat
    case DigitRun => t[p..RunEnd(t, p)]
    case FourDigits => t[p..p + 4]
    case MonthSuffix => t[p..OneOrTwoDigitsEnd(t, p)]
    case YearSepMonth => t[p..p + 4]
  }

  /** The text of group 2 of a YearSepMonth match at p: the month digits. */
  function Group2(t: string, p: nat): (g: string)
    requires MatchAt(YearSepMonth, t, p)
    ensures g != [] && AllDigits(g) && |g| <= 2
  {
    var m := SkipSpaces(t, SkipSpaces(t, p + 4) + 1);
    t[m..OneOrTwoDigitsEnd(t, m)]
  }

  /** int(group(1)) */
  function Group1Value(pat: Pattern, t: string, p: nat): nat
    requires MatchAt(pat, t, p) && !pat.YearDashMonth?
  {
    DigitsValue(Group1(pat, t, p))
  }

  /** int(group(2)) */
  function Group2Value(t: string, p: nat): nat
    requires MatchAt(YearSepMonth, t, p)
  {
    DigitsValue(Group2(t, p))
  }

  lemma SearchFindsFirstMatch(pat: Pattern, t: string, p: nat)
    requires FirstMatch(pat, t, p)
    ensures Search(pat, t, 0) == Some(p)
  {
  }

  lemma SearchFindsNothing(pat: Pattern, t: string)
    requires NoMatch(pat, t)
    ensures Search(pat, t, 0) == None
  {
  }

  /** Every pattern of the core starts with a digit. */
  lemma NoDigitNoMatch(pat: Pattern, t: string)
    requires !HasDigit(t)
    ensures NoMatch(pat, t)
  {
    forall q | 0 <= q < |t| ensures !MatchAt(pat, t, q) {
      assert !IsDigit(t[q]);
      assert !DigitsAt(t, q, 1);
    }
  }

  /** A MonthSuffix match needs the character '월' somewhere in the text. */
  lemma MonthSuffixNeedsMarker(t: string)
    requires forall k :: 0 <= k < |t| ==> t[k] != '월'
    ensures NoMatch(MonthSuffix, t)
  {
  }

  /** t[p..e] is the first maximal run of digits in t. */
  predicate FirstRun(t: string, p: nat, e: nat) {
    && p < e <= |t|
    && (forall k :: 0 <= k < p ==> !IsDigit(t[k]))
    && (forall k :: p <= k < e ==> IsDigit(t[k]))
    && (e == |t| || !IsDigit(t[e]))
  }

  /** re.search(r"(\d+)", t).group(1), or None when t holds no digit. */
  function FirstDigitRun(t: string): (r: Option<string>)
    ensures r.None? <==> !HasDigit(t)
    ensures r.Some? ==> exists p: nat, e: nat :: FirstRun(t, p, e) && r.value == t[p..e]
  {
    assert forall k :: 0 <= k < |t| && IsDigit(t[k]) ==> MatchAt(DigitRun, t, k);
    match Search(DigitRun, t, 0)
    case None => None
    case Some(p) =>
      var e := RunEnd(t, p);
      assert forall k :: 0 <= k < p ==> !MatchAt(DigitRun, t, k);
      assert FirstRun(t, p, e);
      Some(t[p..e])
  }
}
