/**
 * Period resolution (app/sandbox/sub_query/date.py): free text such as "이번 달", "3월",
 * "2024년 12월" or "2025/3" becomes a canonical "YYYY-MM" period, or else the latest period
 * with data for the user. The database lookup (GetLatestPeriodForUser) and the UTC clock
 * are parameters.
 */
module Period {
  import opened Wrappers
  import opened Text
  import opened Regex

  /** datetime's year and month ranges. */
  type Year = y: nat | 1 <= y <= 9999 witness 1
  type MonthOfYear = m: nat | 1 <= m <= 12 witness 1

  /** What datetime.utcnow() reports. */
  datatype Clock = Clock(year: Year, month: MonthOfYear)

  const ThisMonthWords: set<string> := {"this_month", "이번달", "이번 달"}

  /** f"{year:04d}-{month:02d}" */
  function FormatPeriod(year: nat, month: nat): string {
    ZeroPad(year, 4) + "-" + ZeroPad(month, 2)
  }

  /** A canonical period: four digits, '-', and two digits naming a month 1..12. */
  predicate IsPeriod(s: string) {
    && |s| == 7
    && AllDigits(s[..4])
    && s[4] == '-'
    && AllDigits(s[5..])
    && 1 <= DigitsValue(s[5..]) <= 12
  }

  /** Formatting a year below 10000 and a month 1..12 gives a canonical period that reads back as them. */
  lemma FormatPeriodIsPeriod(year: nat, month: nat)
    requires year < 10000 && 1 <= month <= 12
    ensures IsPeriod(FormatPeriod(year, month))
    ensures DigitsValue(FormatPeriod(year, month)[..4]) == year
    ensures DigitsValue(FormatPeriod(year, month)[5..]) == month
  {
    assert Pow10(4) == 10000 && Pow10(2) == 100;
    ZeroPadRoundTrip(year, 4);
    ZeroPadRoundTrip(month, 2);
    var s := FormatPeriod(year, month);
    assert s[..4] == ZeroPad(year, 4);
    assert s[5..] == ZeroPad(month, 2);
  }

  /** A canonical period is the format of the year and month it spells. */
  lemma FormatOfPeriod(s: string)
    requires IsPeriod(s)
    ensures FormatPeriod(DigitsValue(s[..4]), DigitsValue(s[5..])) == s
  {
    ZeroPadOfDigits(s[..4]);
    ZeroPadOfDigits(s[5..]);
    assert s == s[..4] + "-" + s[5..];
  }

  /**
   * The year the "N월" rule takes when the text names none: that of the latest period when it
   * starts with \d{4}-\d{2} (re.match), else the current year. Such a latest period has '-' at
   * index 4 and digits before it, so latest.split("-")[0] is its first four characters.
   */
  function YearWithoutYearText(latest: Option<string>, now: Clock): (y: nat)
    ensures y < 10000
  {
    if latest.Some? && MatchAt(YearDashMonth, latest.value, 0) then LatestYear(latest.value) else now.year
  }

  /** int(latest.split("-")[0]) for a latest period that starts with \d{4}-\d{2}. */
  function LatestYear(latest: string): (y: nat)
    requires MatchAt(YearDashMonth, latest, 0)
    ensures y < 10000
  {
    DigitsValueBound(latest[..4]);
    DigitsValue(latest[..4])
  }

  /** The "YYYY-MM" / "YYYY/MM" / "YYYY.MM" rule, reached when no "N월" rule applied. */
  function StandardOrLatest(text: string, latest: Option<string>): (r: Option<string>)
    ensures r == latest || (r.Some? && IsPeriod(r.value))
  {
    match Search(YearSepMonth, text, 0)
    case None => latest
    case Some(p) =>
      var year := Group1Value(YearSepMonth, text, p);
      var month := Group2Value(text, p);
      if 1 <= month <= 12 then
        DigitsValueBound(Group1(YearSepMonth, text, p));
        FormatPeriodIsPeriod(year, month);
        Some(FormatPeriod(year, month))
      else latest
  }

  /**
   * _ResolvePeriodFromText. `latest` is what GetLatestPeriodForUser(user_id) returns and `now`
   * what datetime.utcnow() returns; the source consults them only on the paths that use them.
   */
  function ResolvePeriodFromText(periodText: Option<string>, latest: Option<string>, now: Clock): (r: Option<string>)
    ensures periodText.None? || periodText == Some("") ==> r == latest
    ensures periodText.Some? && Lower(Strip(periodText.value)) in ThisMonthWords ==>
              r == Some(FormatPeriod(now.year, now.month))
    ensures r == latest || (r.Some? && IsPeriod(r.value))
  {
    if periodText.None? || periodText.value == "" then
      EmptyIsNoKeyword();
      latest
    else
      var text := Strip(periodText.value);
      if Lower(text) in ThisMonthWords then
        FormatPeriodIsPeriod(now.year, now.month);
        Some(FormatPeriod(now.year, now.month))
      else
        var yearMatch := Search(FourDigits, text, 0);
        var monthMatch := Search(MonthSuffix, text, 0);
        if (yearMatch.Some? || monthMatch.Some?)
           && monthMatch.Some? && 1 <= Group1Value(MonthSuffix, text, monthMatch.value) <= 12
        then
          var month := Group1Value(MonthSuffix, text, monthMatch.value);
          var year :=
            if yearMatch.Some? then
              DigitsValueBound(Group1(FourDigits, text, yearMatch.value));
              Group1Value(FourDigits, text, yearMatch.value)
            else YearWithoutYearText(latest, now);
          FormatPeriodIsPeriod(year, month);
          Some(FormatPeriod(year, month))
        else
          StandardOrLatest(text, latest)
  }

  /** Blank text is none of the keywords. */
  lemma EmptyIsNoKeyword()
    ensures Lower(Strip("")) !in ThisMonthWords
  {
    assert Strip("") == "" && Lower("") == "";
  }

  /** No "N월" match in the text names a month 1..12 (there is none, or the first is out of range). */
  predicate NoUsableMonth(t: string) {
    forall i :: 0 <= i < |t| && FirstMatch(MonthSuffix, t, i) ==> !(1 <= Group1Value(MonthSuffix, t, i) <= 12)
  }

  /** "N월" with 1 <= N <= 12 and a four-digit run anywhere: that year and that month. */
  lemma MonthWithYear(s: string, latest: Option<string>, now: Clock, i: nat, j: nat)
    requires s != "" && Lower(Strip(s)) !in ThisMonthWords
    requires FirstMatch(MonthSuffix, Strip(s), i) && 1 <= Group1Value(MonthSuffix, Strip(s), i) <= 12
    requires FirstMatch(FourDigits, Strip(s), j)
    ensures ResolvePeriodFromText(Some(s), latest, now)
         == Some(FormatPeriod(Group1Value(FourDigits, Strip(s), j), Group1Value(MonthSuffix, Strip(s), i)))
  {
    SearchFindsFirstMatch(MonthSuffix, Strip(s), i);
    SearchFindsFirstMatch(FourDigits, Strip(s), j);
  }

  /** "N월" with 1 <= N <= 12 and no four-digit run: the latest period's year, else the current year. */
  lemma MonthWithoutYear(s: string, latest: Option<string>, now: Clock, i: nat)
    requires s != "" && Lower(Strip(s)) !in ThisMonthWords
    requires FirstMatch(MonthSuffix, Strip(s), i) && 1 <= Group1Value(MonthSuffix, Strip(s), i) <= 12
    requires NoMatch(FourDigits, Strip(s))
    ensures ResolvePeriodFromText(Some(s), latest, now)
         == Some(FormatPeriod(YearWithoutYearText(latest, now), Group1Value(MonthSuffix, Strip(s), i)))
    ensures latest.Some? && MatchAt(YearDashMonth, latest.value, 0) ==>
              YearWithoutYearText(latest, now) == LatestYear(latest.value)
    ensures !(latest.Some? && MatchAt(YearDashMonth, latest.value, 0)) ==>
              YearWithoutYearText(latest, now) == now.year
  {
    SearchFindsFirstMatch(MonthSuffix, Strip(s), i);
    SearchFindsNothing(FourDigits, Strip(s));
  }

  /** With no usable "N월", the first "YYYY[-/.]M" match with month 1..12 is normalised. */
  lemma StandardForm(s: string, latest: Option<string>, now: Clock, k: nat)
    requires s != "" && Lower(Strip(s)) !in ThisMonthWords
    requires NoUsableMonth(Strip(s))
    requires FirstMatch(YearSepMonth, Strip(s), k) && 1 <= Group2Value(Strip(s), k) <= 12
    ensures ResolvePeriodFromText(Some(s), latest, now)
         == Some(FormatPeriod(Group1Value(YearSepMonth, Strip(s), k), Group2Value(Strip(s), k)))
  {
    var t := Strip(s);
    SearchFindsFirstMatch(YearSepMonth, t, k);
    var m := Search(MonthSuffix, t, 0);
    if m.Some? {
      assert FirstMatch(MonthSuffix, t, m.value);
    }
  }

  /**
   * Text that no rule accepts (an "N월" with N outside 1..12 included, and a "YYYY-MM" whose
   * month is out of range) resolves to the latest period: a rejected month never reaches the result.
   */
  lemma NoRuleGivesLatest(s: string, latest: Option<string>, now: Clock)
    requires s != "" && Lower(Strip(s)) !in ThisMonthWords
    requires NoUsableMonth(Strip(s))
    requires forall k :: FirstMatch(YearSepMonth, Strip(s), k) ==> !(1 <= Group2Value(Strip(s), k) <= 12)
    ensures ResolvePeriodFromText(Some(s), latest, now) == latest
  {
    var t := Strip(s);
    var m := Search(MonthSuffix, t, 0);
    if m.Some? {
      assert FirstMatch(MonthSuffix, t, m.value);
    }
    var std := Search(YearSepMonth, t, 0);
    if std.Some? {
      assert FirstMatch(YearSepMonth, t, std.value);
    }
  }

  /** Without any "N월" match, only the "YYYY[-/.]M" rule can apply. */
  lemma NoMonthMarkerGivesStandard(s: string, latest: Option<string>, now: Clock)
    requires s != "" && Lower(Strip(s)) !in ThisMonthWords
    requires NoMatch(MonthSuffix, Strip(s))
    ensures ResolvePeriodFromText(Some(s), latest, now) == StandardOrLatest(Strip(s), latest)
  {
    SearchFindsNothing(MonthSuffix, Strip(s));
  }

  /** Text that holds neither a keyword nor a digit resolves to the latest period. */
  lemma NoKeywordNoDigitGivesLatest(s: string, latest: Option<string>, now: Clock)
    requires s != "" && Lower(Strip(s)) !in ThisMonthWords && !HasDigit(Strip(s))
    ensures ResolvePeriodFromText(Some(s), latest, now) == latest
  {
    NoDigitNoMatch(MonthSuffix, Strip(s));
    NoDigitNoMatch(YearSepMonth, Strip(s));
    NoMonthMarkerGivesStandard(s, latest, now);
    SearchFindsNothing(YearSepMonth, Strip(s));
  }

  /**
   * Ten lower-case letters and spaces with a space at index 4, such as "this month", are no keyword:
   * only "this_month" has that length, and it has '_' there.
   */
  lemma SpacedTextIsNoKeyword(s: string)
    requires |s| == 10 && s[4] == ' ' && !IsSpace(s[0]) && !IsSpace(s[9])
    requires forall i :: 0 <= i < |s| ==> 'a' <= s[i] <= 'z' || s[i] == ' '
    ensures s != "" && Lower(Strip(s)) !in ThisMonthWords && !HasDigit(Strip(s))
  {
    StripUnpadded(s);
    LowerOfNoUpper(s);
    NoUnderscoreIsNoKeyword(s);
  }

  /** The only ten-character keyword has '_' at index 4. */
  lemma NoUnderscoreIsNoKeyword(s: string)
    requires |s| == 10 && s[4] != '_'
    ensures s !in ThisMonthWords
  {
    assert "this_month"[4] == '_';
    assert |"이번달"| == 3 && |"이번 달"| == 4;
  }

  /** "this month" with a space is not recognised: by NoKeywordNoDigitGivesLatest it resolves to the latest period. */
  lemma ThisMonthWithSpaceIsNotRecognised(s: string)
    requires s == "this month"
    ensures s != "" && Lower(Strip(s)) !in ThisMonthWords && !HasDigit(Strip(s))
  {
    assert |s| == 10 && s[0] == 't' && s[4] == ' ' && s[9] == 'h';
    assert forall i :: 0 <= i < |s| ==> 'a' <= s[i] <= 'z' || s[i] == ' ';
    SpacedTextIsNoKeyword(s);
  }

  lemma {:induction false} StripOfPeriod(p: string)
    requires IsPeriod(p)
    ensures Strip(p) == p && Lower(p) == p
  {
    assert !IsSpace(p[0]) && !IsSpace(p[6]);
    assert TrimLeft(p, IsSpace) == p;
    assert forall i :: 0 <= i < 7 ==> p[i] == '-' || IsDigit(p[i]);
  }

  lemma StandardOfPeriod(p: string, latest: Option<string>)
    requires IsPeriod(p)
    ensures StandardOrLatest(p, latest) == Some(p)
  {
    assert DigitsAt(p, 0, 4);
    assert !IsSpace(p[4]) && !IsSpace(p[5]);
    assert SkipSpaces(p, 4) == 4;
    assert SkipSpaces(p, 5) == 5;
    assert MatchAt(YearSepMonth, p, 0);
    SearchFindsFirstMatch(YearSepMonth, p, 0);
    assert Group1(YearSepMonth, p, 0) == p[..4];
    assert Group2(p, 0) == p[5..];
    FormatOfPeriod(p);
  }

  lemma PeriodIsNoKeyword(p: string)
    requires IsPeriod(p)
    ensures p !in ThisMonthWords && NoMatch(MonthSuffix, p)
  {
    assert |p| == 7;
    assert forall w :: w in ThisMonthWords ==> |w| != 7;
    assert forall k :: 0 <= k < |p| ==> p[k] != '월' by {
      assert forall i :: 0 <= i < 7 ==> p[i] == '-' || IsDigit(p[i]);
    }
    MonthSuffixNeedsMarker(p);
  }

  /** A canonical period is left as it is by strip() and lower() and falls through to the last rule. */
  lemma PeriodReachesStandardRule(p: string, latest: Option<string>, now: Clock)
    requires p != "" && Strip(p) == p && Lower(p) == p
    requires p !in ThisMonthWords && NoMatch(MonthSuffix, p)
    requires StandardOrLatest(p, latest) == Some(p)
    ensures ResolvePeriodFromText(Some(p), latest, now) == Some(p)
  {
    NoMonthMarkerGivesStandard(p, latest, now);
  }

  lemma PeriodFallsThrough(p: string, latest: Option<string>)
    requires IsPeriod(p)
    ensures p != "" && Strip(p) == p && Lower(p) == p
    ensures p !in ThisMonthWords && NoMatch(MonthSuffix, p)
    ensures StandardOrLatest(p, latest) == Some(p)
  {
    StripOfPeriod(p);
    PeriodIsNoKeyword(p);
    StandardOfPeriod(p, latest);
  }

  /** A canonical period resolves to itself, so resolving a resolved period changes nothing. */
  lemma ResolveCanonicalPeriod(p: string, latest: Option<string>, now: Clock)
    requires IsPeriod(p)
    ensures ResolvePeriodFromText(Some(p), latest, now) == Some(p)
  {
    PeriodFallsThrough(p, latest);
    PeriodReachesStandardRule(p, latest, now);
  }

  lemma ResolveIsIdempotent(text: Option<string>, latest: Option<string>, now: Clock)
    requires ResolvePeriodFromText(text, latest, now) != latest
    ensures ResolvePeriodFromText(ResolvePeriodFromText(text, latest, now), latest, now)
         == ResolvePeriodFromText(text, latest, now)
  {
    ResolveCanonicalPeriod(ResolvePeriodFromText(text, latest, now).value, latest, now);
  }
}
