/**
 * Character classes, stripping, lowering, decimal formatting and parsing, and the
 * leftmost-match search that the routines of the source perform with Python's
 * str methods, f-string formats, int() and re.search.
 */
module Text {
  import opened Wrappers

  /** The characters for which Python's str.isspace() holds: what strip() removes and regex \s matches. */
  predicate IsSpace(c: char) {
    || c == ' '
    || ('\t' <= c <= '\r')
    || ('\U{1C}' <= c <= '\U{1F}')
    || c == '\U{85}' || c == '\U{A0}' || c == '\U{1680}'
    || ('\U{2000}' <= c <= '\U{200A}')
    || c == '\U{2028}' || c == '\U{2029}' || c == '\U{202F}' || c == '\U{205F}' || c == '\U{3000}'
  }

  predicate IsDigit(c: char) {
    '0' <= c <= '9'
  }

  predicate AllDigits(s: string) {
    forall i :: 0 <= i < |s| ==> IsDigit(s[i])
  }

  predicate HasDigit(s: string) {
    exists i :: 0 <= i < |s| && IsDigit(s[i])
  }

  predicate StartsWith(s: string, prefix: string) {
    |prefix| <= |s| && s[..|prefix|] == prefix
  }

  predicate EndsWith(s: string, suffix: string) {
    |suffix| <= |s| && s[|s| - |suffix|..] == suffix
  }

  // ---------------------------------------------------------------------------
  // Stripping (str.lstrip / str.rstrip / str.strip)
  // ---------------------------------------------------------------------------

  /** s without its leading characters that satisfy `drop`. */
  function TrimLeft(s: string, drop: char -> bool): (r: string)
    ensures |r| <= |s| && r == s[|s| - |r|..]
    ensures forall i :: 0 <= i < |s| - |r| ==> drop(s[i])
    ensures r != [] ==> !drop(r[0])
  {
    if s != [] && drop(s[0]) then TrimLeft(s[1..], drop) else s
  }

  /** s without its trailing characters that satisfy `drop`. */
  function TrimRight(s: string, drop: char -> bool): (r: string)
    ensures |r| <= |s| && r == s[..|r|]
    ensures forall i :: |r| <= i < |s| ==> drop(s[i])
    ensures r != [] ==> !drop(r[|r| - 1])
  {
    if s != [] && drop(s[|s| - 1]) then TrimRight(s[..|s| - 1], drop) else s
  }

  /** Python's str.strip() with no argument. */
  function Strip(s: string): string {
    TrimRight(TrimLeft(s, IsSpace), IsSpace)
  }

  lemma {:induction false} TrimLeftSkipsDropped(ws: string, s: string, drop: char -> bool)
    requires forall i :: 0 <= i < |ws| ==> drop(ws[i])
    ensures TrimLeft(ws + s, drop) == TrimLeft(s, drop)
  {
    if ws == [] {
      assert ws + s == s;
    } else {
      assert (ws + s)[1..] == ws[1..] + s;
      TrimLeftSkipsDropped(ws[1..], s, drop);
    }
  }

  lemma {:induction false} TrimRightSkipsDropped(s: string, ws: string, drop: char -> bool)
    requires forall i :: 0 <= i < |ws| ==> drop(ws[i])
    ensures TrimRight(s + ws, drop) == TrimRight(s, drop)
  {
    if ws == [] {
      assert s + ws == s;
    } else {
      assert (s + ws)[..|s + ws| - 1] == s + ws[..|ws| - 1];
      TrimRightSkipsDropped(s, ws[..|ws| - 1], drop);
    }
  }

  lemma {:induction false} TrimLeftAppend(s: string, t: string, drop: char -> bool)
    requires TrimLeft(s, drop) != []
    ensures TrimLeft(s + t, drop) == TrimLeft(s, drop) + t
  {
    if s != [] && drop(s[0]) {
      assert (s + t)[1..] == s[1..] + t;
      TrimLeftAppend(s[1..], t, drop);
    }
  }

  /** A text made only of dropped characters trims to nothing. */
  lemma AllDroppedTrimsAway(s: string, drop: char -> bool)
    requires forall i :: 0 <= i < |s| ==> drop(s[i])
    ensures TrimLeft(s, drop) == []
  {
  }

  /** Trailing dropped characters pass through the left trim and are then removed by the right trim. */
  lemma TrimBothIgnoresSuffix(s: string, ws: string, drop: char -> bool)
    requires forall i :: 0 <= i < |ws| ==> drop(ws[i])
    ensures TrimRight(TrimLeft(s + ws, drop), drop) == TrimRight(TrimLeft(s, drop), drop)
  {
    var l := TrimLeft(s, drop);
    if l != [] {
      TrimLeftAppend(s, ws, drop);
      TrimRightSkipsDropped(l, ws, drop);
    } else {
      assert forall i :: 0 <= i < |s + ws| ==> drop((s + ws)[i]);
      AllDroppedTrimsAway(s + ws, drop);
    }
  }

  /** Whitespace around a value never changes what strip() returns. */
  lemma StripIgnoresPadding(ws1: string, s: string, ws2: string)
    requires forall i :: 0 <= i < |ws1| ==> IsSpace(ws1[i])
    requires forall i :: 0 <= i < |ws2| ==> IsSpace(ws2[i])
    ensures Strip(ws1 + s + ws2) == Strip(s)
  {
    assert ws1 + s + ws2 == ws1 + (s + ws2);
    TrimLeftSkipsDropped(ws1, s + ws2, IsSpace);
    TrimBothIgnoresSuffix(s, ws2, IsSpace);
  }

  // ---------------------------------------------------------------------------
  // Lowering (str.lower restricted to ASCII letters)
  // ---------------------------------------------------------------------------

  function LowerChar(c: char): char {
    if 'A' <= c <= 'Z' then (c as int + 32) as char else c
  }

  function Lower(s: string): string {
    seq(|s|, i requires 0 <= i < |s| => LowerChar(s[i]))
  }

  lemma {:induction false} TrimLeftLowerCommute(s: string)
    ensures TrimLeft(Lower(s), IsSpace) == Lower(TrimLeft(s, IsSpace))
  {
    if s != [] {
      assert IsSpace(Lower(s)[0]) == IsSpace(s[0]);
      assert Lower(s)[1..] == Lower(s[1..]);
      TrimLeftLowerCommute(s[1..]);
    }
  }

  lemma {:induction false} TrimRightLowerCommute(s: string)
    ensures TrimRight(Lower(s), IsSpace) == Lower(TrimRight(s, IsSpace))
  {
    if s != [] {
      assert IsSpace(Lower(s)[|s| - 1]) == IsSpace(s[|s| - 1]);
      assert Lower(s)[..|s| - 1] == Lower(s[..|s| - 1]);
      TrimRightLowerCommute(s[..|s| - 1]);
    }
  }

  /** Text without capital letters is its own lower-case form. */
  lemma LowerOfNoUpper(s: string)
    requires forall i :: 0 <= i < |s| ==> !('A' <= s[i] <= 'Z')
    ensures Lower(s) == s
  {
  }

  lemma LowerIdempotent(s: string)
    ensures Lower(Lower(s)) == Lower(s)
  {
  }

  /** Lowering and stripping can be done in either order. */
  lemma StripLowerCommute(s: string)
    ensures Strip(Lower(s)) == Lower(Strip(s))
  {
    TrimLeftLowerCommute(s);
    TrimRightLowerCommute(TrimLeft(s, IsSpace));
  }

  // ---------------------------------------------------------------------------
  // Decimal numbers: str(n), f"{n:0wd}" and int(digits)
  // ---------------------------------------------------------------------------

  function DigitChar(d: nat): char
    requires d < 10
  {
    ('0' as int + d) as char
  }

  function DigitValue(c: char): nat
    requires IsDigit(c)
  {
    c as int - '0' as int
  }

  function Pow10(k: nat): nat {
    if k == 0 then 1 else 10 * Pow10(k - 1)
  }

  /** The shortest decimal representation of n, as Python's str(n). */
  function Decimal(n: nat): (s: string)
    ensures 1 <= |s| && AllDigits(s)
  {
    if n < 10 then [DigitChar(n)] else Decimal(n / 10) + [DigitChar(n % 10)]
  }

  /** The number a string of decimal digits denotes, as Python's int(s) for such s. */
  function DigitsValue(s: string): nat
    requires AllDigits(s)
  {
    if s == [] then 0 else DigitsValue(s[..|s| - 1]) * 10 + DigitValue(s[|s| - 1])
  }

  function Zeros(k: nat): string {
    seq(k, _ => '0')
  }

  /** Python's format f"{n:0{width}d}" for n >= 0. */
  function ZeroPad(n: nat, width: nat): string {
    var d := Decimal(n);
    (if |d| < width then Zeros(width - |d|) else []) + d
  }

  /** Python's str(i) for an int. */
  function IntToString(i: int): string {
    if i < 0 then "-" + Decimal(-i) else Decimal(i)
  }

  lemma {:induction false} DecimalValue(n: nat)
    ensures DigitsValue(Decimal(n)) == n
  {
    if n >= 10 {
      var d := Decimal(n);
      assert d[..|d| - 1] == Decimal(n / 10);
      DecimalValue(n / 10);
    }
  }

  lemma {:induction false} DecimalLength(n: nat, w: nat)
    requires 1 <= w && n < Pow10(w)
    ensures |Decimal(n)| <= w
  {
    if n >= 10 {
      assert Pow10(1) == 10;
      assert w != 1;
      assert n / 10 < Pow10(w - 1);
      DecimalLength(n / 10, w - 1);
    }
  }

  lemma {:induction false} DigitsValueBound(s: string)
    requires AllDigits(s)
    ensures DigitsValue(s) < Pow10(|s|)
  {
    if s != [] {
      DigitsValueBound(s[..|s| - 1]);
    }
  }

  lemma {:induction false} DigitsValueLeadingZeros(k: nat, s: string)
    requires AllDigits(s)
    ensures AllDigits(Zeros(k) + s) && DigitsValue(Zeros(k) + s) == DigitsValue(s)
  {
    var z := Zeros(k) + s;
    if s == [] {
      if k > 0 {
        assert Zeros(k)[..k - 1] == Zeros(k - 1);
        assert z == Zeros(k);
        DigitsValueLeadingZeros(k - 1, []);
        assert Zeros(k - 1) + [] == Zeros(k - 1);
      }
    } else {
      assert z[..|z| - 1] == Zeros(k) + s[..|s| - 1];
      DigitsValueLeadingZeros(k, s[..|s| - 1]);
    }
  }

  /** f"{n:0wd}" yields exactly w digits that denote n, whenever n has at most w digits. */
  lemma ZeroPadRoundTrip(n: nat, w: nat)
    requires 1 <= w && n < Pow10(w)
    ensures |ZeroPad(n, w)| == w && AllDigits(ZeroPad(n, w)) && DigitsValue(ZeroPad(n, w)) == n
  {
    DecimalLength(n, w);
    DecimalValue(n);
    DigitsValueLeadingZeros(w - |Decimal(n)|, Decimal(n));
  }

  /** Digit strings of the same length with the same value are the same string. */
  lemma {:induction false} DigitsValueInjective(a: string, b: string)
    requires AllDigits(a) && AllDigits(b) && |a| == |b| && DigitsValue(a) == DigitsValue(b)
    ensures a == b
  {
    if a != [] {
      var a', b' := a[..|a| - 1], b[..|b| - 1];
      var p, q := DigitValue(a[|a| - 1]), DigitValue(b[|b| - 1]);
      assert DigitsValue(a') * 10 + p == DigitsValue(b') * 10 + q;
      LastDigitDetermined(DigitsValue(a'), p, DigitsValue(b'), q);
      DigitsValueInjective(a', b');
      assert a == a' + [a[|a| - 1]] && b == b' + [b[|b| - 1]];
    }
  }

  lemma LastDigitDetermined(x: nat, p: nat, y: nat, q: nat)
    requires p < 10 && q < 10 && x * 10 + p == y * 10 + q
    ensures x == y && p == q
  {
  }

  /** Formatting the value of a digit string back to its own width gives the string back. */
  lemma ZeroPadOfDigits(s: string)
    requires AllDigits(s) && 1 <= |s|
    ensures ZeroPad(DigitsValue(s), |s|) == s
  {
    DigitsValueBound(s);
    ZeroPadRoundTrip(DigitsValue(s), |s|);
    DigitsValueInjective(ZeroPad(DigitsValue(s), |s|), s);
  }

  // ---------------------------------------------------------------------------
  // int(text) for a str argument
  // ---------------------------------------------------------------------------

  predicate DigitsOrUnderscores(s: string) {
    forall i :: 0 <= i < |s| ==> IsDigit(s[i]) || s[i] == '_'
  }

  /** Digits with single underscores between them, as int() accepts after the sign. */
  predicate DigitGroups(s: string) {
    && s != []
    && DigitsOrUnderscores(s)
    && IsDigit(s[0])
    && IsDigit(s[|s| - 1])
    && forall i :: 0 <= i < |s| - 1 && s[i] == '_' ==> IsDigit(s[i + 1])
  }

  function DropUnderscores(s: string): (r: string)
    requires DigitsOrUnderscores(s)
    ensures AllDigits(r)
  {
    if s == [] then []
    else (if s[0] == '_' then [] else [s[0]]) + DropUnderscores(s[1..])
  }

  /** Python's int(text): None exactly where int() raises ValueError. Only ASCII digits are read. */
  function ParseInt(text: string): Option<int> {
    ParseSigned(Strip(text))
  }

  /** int() of text already stripped: an optional sign and digit groups. */
  function ParseSigned(t: string): Option<int> {
    if t == [] then None
    else
      var negative := t[0] == '-';
      var body := if negative || t[0] == '+' then t[1..] else t;
      if !DigitGroups(body) then None
      else
        var v := DigitsValue(DropUnderscores(body)) as int;
        Some(if negative then -v else v)
  }

  lemma {:induction false} DropUnderscoresOfDigits(s: string)
    requires AllDigits(s)
    ensures DropUnderscores(s) == s
  {
    if s != [] {
      DropUnderscoresOfDigits(s[1..]);
      assert s == [s[0]] + s[1..];
    }
  }

  /** strip() leaves a string alone when it neither starts nor ends with whitespace. */
  lemma StripUnpadded(s: string)
    requires s != [] && !IsSpace(s[0]) && !IsSpace(s[|s| - 1])
    ensures Strip(s) == s
  {
    assert TrimLeft(s, IsSpace) == s;
  }

  /** strip() leaves nothing to strip. */
  lemma StripIdempotent(s: string)
    ensures Strip(Strip(s)) == Strip(s)
  {
    var r := Strip(s);
    if r != [] {
      assert r == TrimLeft(s, IsSpace)[..|r|];
      StripUnpadded(r);
    }
  }

  /** int() reads a plain run of digits as its decimal value. */
  lemma ParseIntOfDigits(d: string)
    requires d != [] && AllDigits(d)
    ensures ParseInt(d) == Some(DigitsValue(d))
  {
    assert !IsSpace(d[0]) && !IsSpace(d[|d| - 1]);
    StripUnpadded(d);
    ParseSignedOfDigits(d);
  }

  lemma ParseSignedOfDigits(d: string)
    requires d != [] && AllDigits(d)
    ensures ParseSigned(d) == Some(DigitsValue(d))
  {
    assert d[0] != '-' && d[0] != '+';
    assert DigitGroups(d);
    DropUnderscoresOfDigits(d);
  }

  /** int() reads '-' and a plain run of digits as the negated decimal value. */
  lemma ParseIntOfNegatedDigits(d: string)
    requires d != [] && AllDigits(d)
    ensures ParseInt("-" + d) == Some(-(DigitsValue(d) as int))
  {
    var t := "-" + d;
    assert t[0] == '-' && t[|t| - 1] == d[|d| - 1];
    StripUnpadded(t);
    ParseSignedNegated(d);
  }

  lemma ParseSignedNegated(d: string)
    requires d != [] && AllDigits(d)
    ensures ParseSigned("-" + d) == Some(-(DigitsValue(d) as int))
  {
    var t := "-" + d;
    assert t[0] == '-' && t[1..] == d;
    assert DigitGroups(d);
    DropUnderscoresOfDigits(d);
  }

  /** int(str(n)) == n for n >= 0. */
  lemma ParseIntOfDecimal(n: nat)
    ensures ParseInt(Decimal(n)) == Some(n)
  {
    DecimalValue(n);
    ParseIntOfDigits(Decimal(n));
  }

  /** Python's sep.join(parts). */
  function Join(parts: seq<string>, sep: string): string {
    if parts == [] then ""
    else if |parts| == 1 then parts[0]
    else parts[0] + sep + Join(parts[1..], sep)
  }
}
