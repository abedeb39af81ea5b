/** Decimal amounts as text: formatted, parsed and converted without a float. */
module MoneyText {
  import opened Common

  datatype Locale = Ar | Fr | En

  // ── Digit strings ──────────────────────────────────────────────────────────

  predicate IsDigit(c: char) { '0' <= c <= '9' }

  predicate AllDigits(s: string) { forall i :: 0 <= i < |s| ==> IsDigit(s[i]) }

  /** One digit or more, and nothing else. */
  predicate IsNumeral(s: string) { s != [] && AllDigits(s) }

  function Zeros(n: nat): (z: string)
    ensures |z| == n && AllDigits(z)
  {
    seq(n, _ => '0')
  }

  function PadStart(s: string, n: nat): string {
    if |s| >= n then s else Zeros(n - |s|) + s
  }

  function PadEnd(s: string, n: nat): string {
    if |s| >= n then s else s + Zeros(n - |s|)
  }

  /** Leading zeros go, the last digit stays. */
  function StripZeros(s: string): string {
    if |s| >= 2 && s[0] == '0' && IsDigit(s[1]) then StripZeros(s[1..]) else s
  }

  /** The number a digit string denotes. */
  function Value(s: string): nat
    requires AllDigits(s)
  {
    if s == [] then 0 else 10 * Value(s[..|s| - 1]) + (s[|s| - 1] - '0') as nat
  }

  ghost function Pow10(n: nat): (p: nat)
    ensures p > 0
  {
    if n == 0 then 1 else 10 * Pow10(n - 1)
  }

  /** The decimal digits of a natural number. */
  function Digits(n: nat): (s: string)
    ensures IsNumeral(s)
  {
    if n < 10 then [('0' as int + n) as char] else Digits(n / 10) + [('0' as int + n % 10) as char]
  }

  /** The digits from position `i` on, with a separator wherever a multiple of three follows. */
  function GroupFrom(s: string, sep: string, i: nat): string
    requires i <= |s|
    decreases |s| - i
  {
    if i == |s| then []
    else (if 0 < i && (|s| - i) % 3 == 0 then sep else []) + [s[i]] + GroupFrom(s, sep, i + 1)
  }

  function Group(s: string, sep: string): string { GroupFrom(s, sep, 0) }

  // ── The driver app's money.ts ──────────────────────────────────────────────

  const GROUP_SEPARATOR: string := "\U{202f}"

  function DecimalMark(locale: Locale): string { if locale == Fr then "," else "." }

  /** `formatAmount` with its separators left open. */
  function FormatWith(amountMinor: string, exponent: nat, group: string, mark: string): string {
    var negative := |amountMinor| > 0 && amountMinor[0] == '-';
    var digits := if negative then amountMinor[1..] else amountMinor;
    if !IsNumeral(digits) then amountMinor else
    var padded := PadStart(digits, exponent + 1);
    var cut := |padded| - exponent;
    (if negative then "-" else "") + Written(StripZeros(padded[..cut]), padded[cut..], group, mark)
  }

  /** Grouped whole part, then the mark and the fraction unless the currency has no decimals. */
  function Written(whole: string, fraction: string, group: string, mark: string): string {
    Group(whole, group) + (if fraction != "" then mark + fraction else "")
  }

  function FormatAmount(amountMinor: string, exponent: nat, locale: Locale): string {
    FormatWith(amountMinor, exponent, GROUP_SEPARATOR, DecimalMark(locale))
  }

  /** ECMAScript's `\s`. */
  predicate IsSpace(c: char) {
    '\t' <= c <= '\r' || c == ' ' || c == '\U{00a0}' || c == '\U{1680}' || '\U{2000}' <= c <= '\U{200a}'
    || c == '\U{2028}' || c == '\U{2029}' || c == '\U{202f}' || c == '\U{205f}' || c == '\U{3000}' || c == '\U{feff}'
  }

  /** The text without any white space. */
  function RemoveSpaces(s: string): string {
    if s == [] then [] else (if IsSpace(s[0]) then [] else [s[0]]) + RemoveSpaces(s[1..])
  }

  /** The first comma, and no other, becomes a full stop. */
  function CommaToPoint(s: string): string {
    if s == [] then [] else if s[0] == ',' then ['.'] + s[1..] else [s[0]] + CommaToPoint(s[1..])
  }

  /** How many digits `s` starts with. */
  function DigitRun(s: string): (n: nat)
    ensures n <= |s| && AllDigits(s[..n]) && (n < |s| ==> !IsDigit(s[n]))
  {
    if s == [] || !IsDigit(s[0]) then 0 else 1 + DigitRun(s[1..])
  }

  datatype Decimal = Decimal(whole: string, fraction: string)

  /** Digits, and perhaps a full stop with any number of digits behind it. */
  function MatchDecimal(s: string): Option<Decimal> {
    var n := DigitRun(s);
    if n == 0 then None
    else if n == |s| then Some(Decimal(s, ""))
    else if s[n] == '.' && AllDigits(s[n + 1..]) then Some(Decimal(s[..n], s[n + 1..]))
    else None
  }

  function ParseAmount(input: string, exponent: nat): Option<string> {
    match MatchDecimal(CommaToPoint(RemoveSpaces(input)))
    case None => None
    case Some(Decimal(whole, fraction)) =>
      if |fraction| > exponent then None
      else Some(StripZeros(whole + PadEnd(fraction, exponent)))
  }

  // ── The web app's minor-units.ts and format.ts ─────────────────────────────

  /** The text before the first full stop, and the text between it and the second one (or the end). */
  function BeforePoint(s: string): string {
    if s == [] || s[0] == '.' then [] else [s[0]] + BeforePoint(s[1..])
  }

  function AfterPoint(s: string): string {
    if s == [] then [] else if s[0] == '.' then BeforePoint(s[1..]) else AfterPoint(s[1..])
  }

  function ToMinorUnits(amount: string, exponent: nat): string {
    var text := CommaToPoint(amount);
    var fractionRaw := AfterPoint(text);
    var cut := if |fractionRaw| <= exponent then fractionRaw else fractionRaw[..exponent];
    var digits := StripZeros(BeforePoint(text) + PadEnd(cut, exponent));
    if digits == "" then "0" else digits
  }

  function WebGroupMark(locale: Locale): string { if locale == En then "," else " " }

  function WebDecimalMark(locale: Locale): string { if locale == En then "." else "," }

  /** By division and remainder, where the driver app slices the string. `exponent <= 0` prints no decimals. */
  function WebFormatMoney(value: int, exponent: int, locale: Locale): string {
    var abs := if value < 0 then -value else value;
    var sign := if value < 0 then "-" else "";
    if exponent <= 0 then sign + Group(Digits(abs), WebGroupMark(locale))
    else
      var divisor := Power(10, exponent);
      sign + Group(Digits(abs / divisor), WebGroupMark(locale)) + WebDecimalMark(locale)
        + PadStart(Digits(abs % divisor), exponent)
  }

  /** Integer powers. */
  function Power(base: nat, n: nat): (p: nat)
    ensures base > 0 ==> p > 0
  {
    if n == 0 then 1 else base * Power(base, n - 1)
  }

  // ── Values of digit strings ────────────────────────────────────────────────

  lemma ValueSnoc(s: string, c: char)
    requires AllDigits(s) && IsDigit(c)
    ensures AllDigits(s + [c]) && Value(s + [c]) == 10 * Value(s) + (c - '0') as nat
  {
    assert (s + [c])[..|s|] == s;
  }

  lemma TenTimes(v: nat, p: nat, w: nat, d: nat)
    ensures 10 * (v * p + w) + d == v * (10 * p) + (10 * w + d)
  {
  }

  lemma {:induction false} ValueAppend(a: string, b: string)
    requires AllDigits(a) && AllDigits(b)
    ensures AllDigits(a + b) && Value(a + b) == Value(a) * Pow10(|b|) + Value(b)
  {
    if b == [] {
      assert a + b == a;
    } else {
      var b', c := b[..|b| - 1], b[|b| - 1];
      assert a + b == (a + b') + [c] && b == b' + [c];
      ValueAppend(a, b');
      ValueSnoc(a + b', c);
      ValueSnoc(b', c);
      TenTimes(Value(a), Pow10(|b'|), Value(b'), (c - '0') as nat);
    }
  }

  lemma {:induction false} ValueZeros(n: nat)
    ensures Value(Zeros(n)) == 0
  {
    if n > 0 {
      assert Zeros(n)[..n - 1] == Zeros(n - 1);
      ValueZeros(n - 1);
    }
  }

  lemma {:induction false} ValueBound(s: string)
    requires AllDigits(s)
    ensures Value(s) < Pow10(|s|)
  {
    if s != [] { ValueBound(s[..|s| - 1]); }
  }

  /** Stripping leaves a numeral of the same value that starts with a zero only if it is "0". */
  lemma {:induction false} StripZerosMeaning(s: string)
    requires AllDigits(s)
    ensures AllDigits(StripZeros(s)) && Value(StripZeros(s)) == Value(s)
    ensures s != [] ==> StripZeros(s) != [] && (StripZeros(s)[0] == '0' ==> |StripZeros(s)| == 1)
  {
    if |s| >= 2 && s[0] == '0' {
      StripZerosMeaning(s[1..]);
      ValueAppend(s[..1], s[1..]);
      assert s[..1] + s[1..] == s;
      assert s[..1][..0] == [];
      assert Value(s[..1]) == 0;
    }
  }

  lemma {:induction false} DigitsValue(n: nat)
    ensures Value(Digits(n)) == n
    ensures Digits(n)[0] == '0' ==> n == 0 && |Digits(n)| == 1
  {
    if n >= 10 {
      DigitsValue(n / 10);
      var s := Digits(n);
      assert s[..|s| - 1] == Digits(n / 10);
    } else {
      assert Digits(n)[..0] == [];
    }
  }

  /** A value fixes its numeral once the length is fixed. */
  lemma {:induction false} SameValueSameDigits(a: string, b: string)
    requires AllDigits(a) && AllDigits(b) && |a| == |b| && Value(a) == Value(b)
    ensures a == b
  {
    if a != [] {
      var n := |a| - 1;
      assert a == a[..n] + [a[n]] && b == b[..n] + [b[n]];
      SameValueSameDigits(a[..n], b[..n]);
    }
  }

  lemma {:induction false} ValueAtLeast(s: string)
    requires IsNumeral(s) && s[0] != '0'
    ensures Value(s) >= Pow10(|s| - 1)
  {
    if |s| > 1 { ValueAtLeast(s[..|s| - 1]); }
  }

  lemma {:induction false} Pow10Monotone(m: nat, n: nat)
    requires m <= n
    ensures Pow10(m) <= Pow10(n)
  {
    if m < n { Pow10Monotone(m, n - 1); }
  }

  lemma {:induction false} Pow10Split(m: nat, n: nat)
    ensures Pow10(m + n) == Pow10(m) * Pow10(n)
  {
    if m > 0 { Pow10Split(m - 1, n); }
  }

  lemma LongerIsLarger(a: string, b: string)
    requires IsNumeral(a) && IsNumeral(b) && b[0] != '0' && |a| < |b|
    ensures Value(a) < Value(b)
  {
    ValueBound(a);
    ValueAtLeast(b);
    Pow10Monotone(|a|, |b| - 1);
  }

  /** Without leading zeros a numeral is determined by its value. */
  lemma CanonicalNumerals(a: string, b: string)
    requires IsNumeral(a) && IsNumeral(b) && Value(a) == Value(b)
    requires (a[0] == '0' ==> |a| == 1) && (b[0] == '0' ==> |b| == 1)
    ensures a == b
  {
    if a[0] == '0' || b[0] == '0' {
      assert a[..0] == [] && b[..0] == [];
      if a[0] != '0' { ValueAtLeast(a); } else if b[0] != '0' { ValueAtLeast(b); }
    } else {
      if |a| < |b| {
        LongerIsLarger(a, b);
      } else if |b| < |a| {
        LongerIsLarger(b, a);
      } else {
        SameValueSameDigits(a, b);
      }
    }
  }

  lemma StripZerosCanonical(s: string)
    requires IsNumeral(s)
    ensures StripZeros(s) == Digits(Value(s))
  {
    StripZerosMeaning(s);
    DigitsValue(Value(s));
    CanonicalNumerals(StripZeros(s), Digits(Value(s)));
  }

  // ── parseAmount undoes formatAmount ────────────────────────────────────────

  lemma {:induction false} RemoveSpacesAppend(a: string, b: string)
    ensures RemoveSpaces(a + b) == RemoveSpaces(a) + RemoveSpaces(b)
  {
    if a == [] {
      assert a + b == b;
    } else {
      assert (a + b)[1..] == a[1..] + b;
      RemoveSpacesAppend(a[1..], b);
    }
  }

  /** Every character ECMAScript counts as white space. */
  const WHITE_SPACE: string :=
    "\t\n\U{b}\U{c}\r \U{a0}\U{1680}\U{2000}\U{2001}\U{2002}\U{2003}\U{2004}\U{2005}\U{2006}\U{2007}\U{2008}\U{2009}\U{200a}\U{2028}\U{2029}\U{202f}\U{205f}\U{3000}\U{feff}"

  lemma SpacesAreWhite(c: char)
    ensures IsSpace(c) <==> c in WHITE_SPACE
  {
    var w := WHITE_SPACE;
    assert w[0] == '\t' && w[1] == '\n' && w[2] == '\U{b}' && w[3] == '\U{c}' && w[4] == '\r' && w[5] == ' ' && w[6] == '\U{a0}';
    assert w[7] == '\U{1680}' && w[8] == '\U{2000}' && w[9] == '\U{2001}' && w[10] == '\U{2002}' && w[11] == '\U{2003}';
    assert w[12] == '\U{2004}' && w[13] == '\U{2005}' && w[14] == '\U{2006}' && w[15] == '\U{2007}' && w[16] == '\U{2008}';
    assert w[17] == '\U{2009}' && w[18] == '\U{200a}' && w[19] == '\U{2028}' && w[20] == '\U{2029}' && w[21] == '\U{202f}';
    assert w[22] == '\U{205f}' && w[23] == '\U{3000}' && w[24] == '\U{feff}';
  }

  /** `kept` are the characters of `s` at these places: all that are not white space, in order. */
  ghost predicate AreVisible(s: string, kept: string, at: seq<nat>) {
    && Increasing(at) && |kept| == |at| && (forall i :: 0 <= i < |at| ==> at[i] < |s| && kept[i] == s[at[i]] && !IsSpace(kept[i]))
    && forall k: nat :: k < |s| && !IsSpace(s[k]) ==> k in at
  }

  lemma VisibleSnoc(s: string, kept: string, at: seq<nat>, c: char)
    requires AreVisible(s, kept, at)
    ensures IsSpace(c) ==> AreVisible(s + [c], kept, at)
    ensures !IsSpace(c) ==> AreVisible(s + [c], kept + [c], at + [|s|])
  {
    assert (s + [c])[|s|] == c;
    if !IsSpace(c) { assert |s| in at + [|s|]; }
  }

  lemma RemoveSpacesSnoc(s: string, c: char)
    ensures RemoveSpaces(s + [c]) == if IsSpace(c) then RemoveSpaces(s) else RemoveSpaces(s) + [c]
  {
    RemoveSpacesAppend(s, [c]);
    assert [c][1..] == [];
  }

  /** Removing white space keeps every other character, in order. */
  lemma {:induction false} RemoveSpacesMeaning(s: string) returns (at: seq<nat>)
    ensures AreVisible(s, RemoveSpaces(s), at)
  {
    if s == "" {
      at := [];
    } else {
      var before, c := s[..|s| - 1], s[|s| - 1];
      at := RemoveSpacesMeaning(before);
      VisibleSnoc(before, RemoveSpaces(before), at, c);
      RemoveSpacesSnoc(before, c);
      assert s == before + [c];
      if !IsSpace(c) { at := at + [|before|]; }
    }
  }

  lemma {:induction false} RemoveSpacesDigits(s: string)
    requires AllDigits(s)
    ensures RemoveSpaces(s) == s
  {
    if s != [] { RemoveSpacesDigits(s[1..]); }
  }

  /** Grouping adds separators and nothing else. */
  lemma {:induction false} UngroupFrom(s: string, i: nat)
    requires i <= |s| && AllDigits(s)
    ensures RemoveSpaces(GroupFrom(s, GROUP_SEPARATOR, i)) == s[i..]
    decreases |s| - i
  {
    if i < |s| {
      UngroupFrom(s, i + 1);
      var sep := if 0 < i && (|s| - i) % 3 == 0 then GROUP_SEPARATOR else [];
      var rest := GroupFrom(s, GROUP_SEPARATOR, i + 1);
      assert GroupFrom(s, GROUP_SEPARATOR, i) == sep + ([s[i]] + rest);
      RemoveSpacesAppend(sep, [s[i]] + rest);
      RemoveSpacesAppend([s[i]], rest);
      assert RemoveSpaces(sep) == [] by { if sep != [] { assert sep[1..] == []; } }
      RemoveSpacesDigits([s[i]]);
    }
  }

  /** The last three digits stand alone behind the last separator, and so on to the left. */
  lemma GroupsOfThree(s: string, sep: string)
    ensures |s| <= 3 ==> Group(s, sep) == s
    ensures |s| > 3 ==> Group(s, sep) == Group(s[..|s| - 3], sep) + (sep + s[|s| - 3..])
  {
    if |s| <= 3 { LastGroup(s, sep, 0); } else { LastGroup(s, sep, |s| - 3); GroupsBefore(s, sep, 0); }
  }

  lemma {:induction false} LastGroup(s: string, sep: string, i: nat)
    requires i <= |s| <= i + 3
    ensures GroupFrom(s, sep, i) == (if 0 < i && |s| == i + 3 then sep else "") + s[i..]
    decreases |s| - i
  {
    if i < |s| { LastGroup(s, sep, i + 1); }
  }

  lemma {:induction false} GroupsBefore(s: string, sep: string, i: nat)
    requires |s| > 3 && i <= |s| - 3
    ensures GroupFrom(s, sep, i) == GroupFrom(s[..|s| - 3], sep, i) + (sep + s[|s| - 3..])
    decreases |s| - i
  {
    var p := s[..|s| - 3];
    if i == |p| {
      LastGroup(s, sep, i);
    } else {
      GroupsBefore(s, sep, i + 1);
      SameThirds(|s|, i);
      var here := (if 0 < i && (|s| - i) % 3 == 0 then sep else []) + [s[i]];
      Regrouped(here, GroupFrom(p, sep, i + 1), sep + s[|p|..]);
    }
  }

  lemma Regrouped(a: string, b: string, c: string)
    ensures (a + b) + c == a + (b + c)
  {
  }

  lemma SameThirds(n: nat, i: nat)
    requires i + 3 < n
    ensures (n - i) % 3 == (n - 3 - i) % 3
  {
  }

  lemma {:induction false} CommaToPointDigits(whole: string, rest: string)
    requires AllDigits(whole)
    ensures CommaToPoint(whole + rest) == whole + CommaToPoint(rest)
  {
    if whole == [] {
      assert whole + rest == rest;
    } else {
      assert (whole + rest)[1..] == whole[1..] + rest;
      CommaToPointDigits(whole[1..], rest);
    }
  }

  lemma {:induction false} DigitRunOf(whole: string, rest: string)
    requires AllDigits(whole) && (rest != [] ==> !IsDigit(rest[0]))
    ensures DigitRun(whole + rest) == |whole|
  {
    if whole != [] {
      assert (whole + rest)[1..] == whole[1..] + rest;
      DigitRunOf(whole[1..], rest);
    }
  }

  lemma PaddedValue(s: string, n: nat)
    requires AllDigits(s)
    ensures AllDigits(PadStart(s, n)) && Value(PadStart(s, n)) == Value(s)
  {
    if |s| < n {
      ValueZeros(n - |s|);
      ValueAppend(Zeros(n - |s|), s);
    }
  }

  lemma PadEndValue(s: string, n: nat)
    requires AllDigits(s) && |s| <= n
    ensures AllDigits(PadEnd(s, n)) && Value(PadEnd(s, n)) == Value(s) * Pow10(n - |s|)
  {
    if |s| < n {
      ValueZeros(n - |s|);
      ValueAppend(s, Zeros(n - |s|));
    }
  }

  lemma MatchWhole(whole: string)
    requires IsNumeral(whole)
    ensures MatchDecimal(whole) == Some(Decimal(whole, ""))
  {
    DigitRunOf(whole, "");
    assert whole + "" == whole;
  }

  lemma MatchPoint(whole: string, fraction: string)
    requires IsNumeral(whole) && AllDigits(fraction)
    ensures MatchDecimal(whole + "." + fraction) == Some(Decimal(whole, fraction))
  {
    var rest := "." + fraction;
    assert whole + "." + fraction == whole + rest;
    DigitRunOf(whole, rest);
    assert (whole + rest)[..|whole|] == whole && (whole + rest)[|whole| + 1..] == fraction;
  }

  lemma Joined(a: string, b: string, c: string)
    ensures a + b + c == a + (b + c)
  {
  }

  lemma MarkBecomesPoint(mark: string, fraction: string)
    requires AllDigits(fraction) && mark in {".", ","}
    ensures CommaToPoint(mark + fraction) == "." + fraction
  {
    assert (mark + fraction)[0] == mark[0] && (mark + fraction)[1..] == fraction;
    if mark == "." {
      CommaToPointDigits(fraction, "");
      assert fraction + "" == fraction;
    }
  }

  lemma MarkToPoint(whole: string, mark: string, fraction: string)
    requires AllDigits(whole) && AllDigits(fraction) && mark in {".", ","}
    ensures CommaToPoint(whole + mark + fraction) == whole + "." + fraction
  {
    Joined(whole, mark, fraction);
    CommaToPointDigits(whole, mark + fraction);
    MarkBecomesPoint(mark, fraction);
    Joined(whole, ".", fraction);
  }

  /** What is read back from digits, an optional mark and more digits. */
  lemma MatchWritten(whole: string, mark: string, fraction: string)
    requires IsNumeral(whole) && AllDigits(fraction) && mark in {"", ".", ","} && (mark == "" ==> fraction == "")
    ensures MatchDecimal(CommaToPoint(whole + mark + fraction)) == Some(Decimal(whole, fraction))
  {
    if mark == "" {
      assert whole + mark + fraction == whole + "";
      CommaToPointDigits(whole, "");
      assert whole + "" == whole;
      MatchWhole(whole);
    } else {
      MarkToPoint(whole, mark, fraction);
      MatchPoint(whole, fraction);
    }
  }

  /** The text is the decimal's digits, with a mark between them unless there is nothing behind it. */
  ghost predicate Spells(text: string, d: Decimal) {
    && IsNumeral(d.whole) && AllDigits(d.fraction)
    && exists mark :: mark in {"", ".", ","} && (mark == "" ==> d.fraction == "") && text == d.whole + mark + d.fraction
  }

  /** A full stop may stand where the text has a comma; all else is as typed. */
  lemma {:induction false} OnlyCommasChange(text: string)
    ensures |CommaToPoint(text)| == |text|
    ensures forall i :: 0 <= i < |text| ==>
              CommaToPoint(text)[i] == text[i] || (CommaToPoint(text)[i] == '.' && text[i] == ',')
  {
    if text != [] && text[0] != ',' {
      var rest := CommaToPoint(text[1..]);
      OnlyCommasChange(text[1..]);
      forall i | 0 < i < |text| ensures CommaToPoint(text)[i] == text[i] || (CommaToPoint(text)[i] == '.' && text[i] == ',') {
        assert CommaToPoint(text)[i] == rest[i - 1] && text[i] == text[1..][i - 1];
      }
    }
  }

  /** A text that spells a decimal is matched as that one, so it spells no other. */
  lemma SpelledIsMatched(text: string, d: Decimal)
    requires Spells(text, d)
    ensures MatchDecimal(CommaToPoint(text)) == Some(d)
  {
    var mark :| mark in {"", ".", ","} && (mark == "" ==> d.fraction == "") && text == d.whole + mark + d.fraction;
    MatchWritten(d.whole, mark, d.fraction);
  }

  /** And nothing else is matched. */
  lemma MatchedIsSpelled(text: string, d: Decimal)
    requires MatchDecimal(CommaToPoint(text)) == Some(d)
    ensures Spells(text, d)
  {
    OnlyCommasChange(text);
    var n := DigitRun(CommaToPoint(text));
    if n == |text| {
      assert text == d.whole;
      assert text == d.whole + "" + d.fraction;
    } else {
      SplitAt(CommaToPoint(text), text, n);
      assert [text[n]] in {".", ","};
      assert text == d.whole + [text[n]] + d.fraction;
    }
  }

  lemma SplitAt(s: string, text: string, n: nat)
    requires |s| == |text| && n < |s| && AllDigits(s[..n]) && AllDigits(s[n + 1..])
    requires forall i :: 0 <= i < |s| ==> s[i] == text[i] || (s[i] == '.' && text[i] == ',')
    ensures text == s[..n] + [text[n]] + s[n + 1..]
  {
    forall i | 0 <= i < |s| && i != n ensures text[i] == s[i] {
      if i < n { assert s[..n][i] == s[i]; } else { assert s[n + 1..][i - n - 1] == s[i]; }
    }
  }

  lemma MarkIsKept(mark: string, fraction: string)
    requires AllDigits(fraction) && mark in {"", ".", ","}
    ensures RemoveSpaces(mark + fraction) == mark + fraction
  {
    RemoveSpacesAppend(mark, fraction);
    RemoveSpacesDigits(fraction);
    if mark != "" { assert mark[1..] == ""; }
  }

  lemma ReadBack(whole: string, fraction: string, mark: string)
    requires IsNumeral(whole) && AllDigits(fraction) && mark in {".", ","}
    ensures MatchDecimal(CommaToPoint(RemoveSpaces(Written(whole, fraction, GROUP_SEPARATOR, mark))))
            == Some(Decimal(whole, fraction))
  {
    var grouped := Group(whole, GROUP_SEPARATOR);
    var shown := if fraction == "" then "" else mark;
    assert Written(whole, fraction, GROUP_SEPARATOR, mark) == grouped + (shown + fraction);
    UngroupFrom(whole, 0);
    assert RemoveSpaces(grouped) == whole;
    RemoveSpacesAppend(grouped, shown + fraction);
    MarkIsKept(shown, fraction);
    assert whole + (shown + fraction) == whole + shown + fraction;
    MatchWritten(whole, shown, fraction);
  }

  lemma SameAfterStripping(head: string, fraction: string)
    requires IsNumeral(head) && AllDigits(fraction)
    ensures IsNumeral(StripZeros(head)) && IsNumeral(StripZeros(head) + fraction)
    ensures Value(StripZeros(head) + fraction) == Value(head + fraction)
  {
    StripZerosMeaning(head);
    ValueAppend(StripZeros(head), fraction);
    ValueAppend(head, fraction);
  }

  /** The parts of an amount: no leading zeros, `exponent` decimals, and together the digits of the minor units. */
  ghost predicate AreParts(digits: string, exponent: nat, whole: string, fraction: string) {
    && IsNumeral(digits) && IsNumeral(whole) && AllDigits(fraction) && |fraction| == exponent
    && (whole[0] == '0' ==> |whole| == 1) && AllDigits(whole + fraction) && Value(whole + fraction) == Value(digits)
  }

  lemma PartsOf(digits: string, exponent: nat) returns (whole: string, fraction: string)
    requires IsNumeral(digits)
    ensures AreParts(digits, exponent, whole, fraction)
    ensures var padded := PadStart(digits, exponent + 1); whole == StripZeros(padded[..|padded| - exponent]) && fraction == padded[|padded| - exponent..]
  {
    var padded := PadStart(digits, exponent + 1);
    var head := padded[..|padded| - exponent];
    whole, fraction := StripZeros(head), padded[|padded| - exponent..];
    PaddedValue(digits, exponent + 1);
    CutDigits(padded, head, fraction);
    StripZerosMeaning(head);
    SameAfterStripping(head, fraction);
  }

  lemma CutDigits(s: string, head: string, fraction: string)
    requires AllDigits(s) && head != "" && |head| <= |s| && head == s[..|head|] && fraction == s[|head|..]
    ensures head + fraction == s && IsNumeral(head) && AllDigits(fraction)
  {
  }

  lemma SameNumeral(a: string, b: string)
    requires IsNumeral(a) && IsNumeral(b) && Value(a) == Value(b)
    ensures StripZeros(a) == StripZeros(b)
  {
    StripZerosCanonical(a);
    StripZerosCanonical(b);
  }

  /** Reading a formatted amount back, with the same exponent and any locale, gives its digits without leading zeros. */
  lemma ParseUndoesFormat(digits: string, exponent: nat, locale: Locale)
    requires IsNumeral(digits)
    ensures ParseAmount(FormatAmount(digits, exponent, locale), exponent) == Some(StripZeros(digits))
  {
    var whole, fraction := PartsOf(digits, exponent);
    FormatIsWritten(digits, exponent, locale);
    ReadWritten(whole, fraction, DecimalMark(locale));
    SameNumeral(whole + fraction, digits);
  }

  /** An amount as the driver app shows it: the sign, the whole part in groups, and exactly the currency's decimals. */
  ghost predicate IsShown(sign: string, whole: string, fraction: string, group: string, mark: string, text: string) {
    text == sign + (Group(whole, group) + (if fraction == "" then "" else mark + fraction))
  }

  /** The text is no integer: no digits, or something else among them. */
  ghost predicate IsUnreadable(digits: string) { digits == "" || exists i :: 0 <= i < |digits| && !('0' <= digits[i] <= '9') }

  /** What is no integer is shown as it is; any other amount in groups behind a narrow space, with a comma in French and a point else. */
  lemma FormatMeaning(amount: string, exponent: nat, locale: Locale, sign: string, digits: string, mark: string)
    returns (whole: string, fraction: string)
    requires sign in {"", "-"} && amount == sign + digits && (sign == "" && amount != "" ==> amount[0] != '-')
    requires mark == match locale case Fr => "," case Ar => "." case En => "."
    ensures IsUnreadable(digits) ==> FormatAmount(amount, exponent, locale) == amount
    ensures !IsUnreadable(digits) ==>
              && AreParts(digits, exponent, whole, fraction)
              && IsShown(sign, whole, fraction, "\U{202f}", mark, FormatAmount(amount, exponent, locale))
  {
    whole, fraction := "", "";
    UnreadableMeaning(digits);
    FormatSigned(amount, exponent, locale, sign, digits);
    if IsNumeral(digits) { whole, fraction := PartsOf(digits, exponent); }
  }

  lemma UnreadableMeaning(digits: string)
    ensures IsUnreadable(digits) <==> !IsNumeral(digits)
  {
    assert IsUnreadable(digits) <==> digits == "" || exists i :: 0 <= i < |digits| && !IsDigit(digits[i]);
  }

  lemma FormatSigned(amount: string, exponent: nat, locale: Locale, sign: string, digits: string)
    requires sign in {"", "-"} && amount == sign + digits && (sign == "" && amount != "" ==> amount[0] != '-')
    ensures var padded := PadStart(digits, exponent + 1);
            var cut := |padded| - exponent;
            FormatAmount(amount, exponent, locale)
            == if !IsNumeral(digits) then amount
               else sign + Written(StripZeros(padded[..cut]), padded[cut..], GROUP_SEPARATOR, DecimalMark(locale))
  {
    var negative := amount != "" && amount[0] == '-';
    assert (if negative then amount[1..] else amount) == digits;
  }

  lemma FormatIsWritten(digits: string, exponent: nat, locale: Locale)
    requires IsNumeral(digits)
    ensures var padded := PadStart(digits, exponent + 1);
            var cut := |padded| - exponent;
            FormatAmount(digits, exponent, locale)
            == Written(StripZeros(padded[..cut]), padded[cut..], GROUP_SEPARATOR, DecimalMark(locale))
  {
  }

  lemma ReadWritten(whole: string, fraction: string, mark: string)
    requires IsNumeral(whole) && AllDigits(fraction) && mark in {".", ","}
    ensures ParseAmount(Written(whole, fraction, GROUP_SEPARATOR, mark), |fraction|) == Some(StripZeros(whole + fraction))
  {
    ReadBack(whole, fraction, mark);
    assert PadEnd(fraction, |fraction|) == fraction;
  }

  lemma ScaledValue(whole: string, fraction: string, exponent: nat)
    requires AllDigits(whole) && AllDigits(fraction) && |fraction| <= exponent
    ensures AllDigits(whole + PadEnd(fraction, exponent))
    ensures Value(whole + PadEnd(fraction, exponent)) == Value(whole + fraction) * Pow10(exponent - |fraction|)
  {
    assert whole + PadEnd(fraction, exponent) == PadEnd(whole + fraction, |whole| + exponent);
    PadEndValue(whole + fraction, |whole| + exponent);
  }

  /** The canonical numeral of the decimal times ten to the exponent. */
  ghost function InMinorUnits(d: Decimal, exponent: nat): string
    requires IsNumeral(d.whole) && AllDigits(d.fraction) && |d.fraction| <= exponent
  {
    var all := d.whole + d.fraction;
    Digits(Value(all) * Pow10(exponent - |d.fraction|))
  }

  ghost predicate SpellsSome(text: string) { exists d :: Spells(text, d) }

  /**
   * An amount is refused exactly when, spaces aside, it spells no decimal or one with too many decimals; otherwise the
   * result is the canonical numeral of the decimal it spells, times ten to the exponent.
   */
  lemma ParseIsExact(input: string, exponent: nat, d: Decimal)
    ensures Spells(RemoveSpaces(input), d) ==>
              ParseAmount(input, exponent) == if |d.fraction| <= exponent then Some(InMinorUnits(d, exponent)) else None
    ensures !SpellsSome(RemoveSpaces(input)) ==> ParseAmount(input, exponent).None?
  {
    var text := RemoveSpaces(input);
    if Spells(text, d) {
      SpelledIsMatched(text, d);
      if |d.fraction| <= exponent { MinorIsExact(d, exponent); }
    }
    var typed := MatchDecimal(CommaToPoint(text));
    if typed.Some? {
      MatchedIsSpelled(text, typed.value);
      assert Spells(text, typed.value);
    }
  }

  lemma MinorIsExact(d: Decimal, exponent: nat)
    requires IsNumeral(d.whole) && AllDigits(d.fraction) && |d.fraction| <= exponent
    ensures StripZeros(d.whole + PadEnd(d.fraction, exponent)) == InMinorUnits(d, exponent)
  {
    ScaledValue(d.whole, d.fraction, exponent);
    StripZerosCanonical(d.whole + PadEnd(d.fraction, exponent));
  }

  // ── toMinorUnits ───────────────────────────────────────────────────────────

  lemma {:induction false} SplitWritten(whole: string, mark: string, fraction: string)
    requires AllDigits(whole) && AllDigits(fraction) && mark in {"", ".", ","} && (mark == "" ==> fraction == "")
    ensures BeforePoint(CommaToPoint(whole + mark + fraction)) == whole
    ensures AfterPoint(CommaToPoint(whole + mark + fraction)) == fraction
  {
    var text := whole + mark + fraction;
    if whole != [] {
      assert text[1..] == whole[1..] + mark + fraction;
      SplitWritten(whole[1..], mark, fraction);
    } else if mark != "" {
      assert text[1..] == fraction;
      BeforePointDigits(fraction);
      assert CommaToPoint(text) == "." + fraction by {
        if mark == "." { CommaToPointDigits(fraction, ""); assert fraction + "" == fraction; }
      }
    }
  }

  /** The first `c` of the text is at `i`, or there is none and `i` is its length. */
  predicate IsFirst(s: string, c: char, i: nat) {
    i <= |s| && c !in s[..i] && (i < |s| ==> s[i] == c)
  }

  lemma FirstOf(s: string, c: char, i: nat)
    requires s != [] && s[0] != c && IsFirst(s[1..], c, i)
    ensures IsFirst(s, c, i + 1) && s[..i + 1] == [s[0]] + s[1..][..i]
  {
  }

  /** Only the first comma becomes a full stop. */
  lemma {:induction false} CommaMeaning(text: string) returns (i: nat)
    ensures IsFirst(text, ',', i)
    ensures CommaToPoint(text) == if i == |text| then text else text[..i] + "." + text[i + 1..]
  {
    i := 0;
    if text != [] && text[0] != ',' {
      var j := CommaMeaning(text[1..]);
      FirstOf(text, ',', j);
      i := j + 1;
    }
  }

  /** What is before the first full stop, and what is between it and the second. */
  lemma {:induction false} PointsMeaning(text: string) returns (i: nat, j: nat)
    ensures IsFirst(text, '.', i) && BeforePoint(text) == text[..i]
    ensures i == |text| ==> AfterPoint(text) == ""
    ensures i < |text| ==> IsFirst(text[i + 1..], '.', j) && AfterPoint(text) == text[i + 1..][..j]
  {
    i, j := 0, 0;
    if text != [] {
      if text[0] == '.' {
        var k, l := PointsMeaning(text[1..]);
        j := k;
      } else {
        var k, l := PointsMeaning(text[1..]);
        FirstOf(text, '.', k);
        i, j := k + 1, l;
      }
    }
  }

  lemma {:induction false} BeforePointDigits(s: string)
    requires AllDigits(s)
    ensures BeforePoint(s) == s
  {
    if s != [] { BeforePointDigits(s[1..]); }
  }

  lemma MulMonotone(a: nat, b: nat, d: nat)
    requires a <= b
    ensures a * d <= b * d
  {
    assert b * d == a * d + (b - a) * d;
  }

  lemma DivideExactly(q: nat, d: nat, r: nat)
    requires r < d
    ensures (q * d + r) / d == q && (q * d + r) % d == r
  {
    var x := q * d + r;
    var y := x / d;
    assert x == y * d + x % d;
    if y < q {
      assert (y + 1) * d == y * d + d;
      MulMonotone(y + 1, q, d);
    } else if q < y {
      assert (q + 1) * d == q * d + d;
      MulMonotone(q + 1, y, d);
    }
  }

  /** The integer part of `v / 10^f * 10^e`. */
  ghost function FloorScaled(v: nat, e: nat, f: nat): nat {
    MulMonotone(0, v, Pow10(e));
    FloorDiv(v * Pow10(e), Pow10(f))
  }

  ghost function FloorDiv(n: nat, d: nat): nat
    requires d > 0
  {
    n / d
  }

  lemma CutExact(v: nat, m: nat, f: nat)
    requires f > 0
    ensures v * (m * f) / f == v * m
  {
    assert v * (m * f) == (v * m) * f + 0;
    DivideExactly(v * m, f, 0);
  }

  lemma CutInexact(v: nat, p: nat, q: nat, l: nat, r: nat, e: nat)
    requires v == q * l + r && p == l * e && r < l && e > 0 && p > 0
    ensures v * e / p == q
  {
    assert v * e == q * (l * e) + r * e;
    assert r * e < l * e by {
      MulMonotone(r + 1, l, e);
      assert (r + 1) * e == r * e + e;
    }
    DivideExactly(q, l * e, r * e);
  }

  /**
   * The floor of the amount times ten to the exponent, for every decimal, with or without digits before the mark: what is
   * beyond the currency's precision is cut, not rounded.
   */
  lemma MinorUnitsAreFloor(whole: string, mark: string, fraction: string, exponent: nat)
    requires AllDigits(whole) && AllDigits(fraction) && mark in {"", ".", ","} && (mark == "" ==> fraction == "")
    ensures ToMinorUnits(whole + mark + fraction, exponent)
            == Digits(FloorScaled(Value(whole + fraction), exponent, |fraction|))
  {
    SplitWritten(whole, mark, fraction);
    if |fraction| <= exponent {
      ScaledUp(whole, fraction, exponent);
    } else {
      CutDown(whole, fraction, exponent);
    }
  }

  /** The digits without leading zeros; no digits are a zero. */
  function OrZero(digits: string): string { if StripZeros(digits) == "" then "0" else StripZeros(digits) }

  lemma OrZeroCanonical(s: string)
    requires AllDigits(s)
    ensures OrZero(s) == Digits(Value(s))
  {
    if s != "" { StripZerosCanonical(s); }
  }

  lemma ScaledUp(whole: string, fraction: string, exponent: nat)
    requires AllDigits(whole) && AllDigits(fraction) && |fraction| <= exponent
    ensures OrZero(whole + PadEnd(fraction, exponent)) == Digits(FloorScaled(Value(whole + fraction), exponent, |fraction|))
  {
    ScaledValue(whole, fraction, exponent);
    ScaledFloor(Value(whole + fraction), exponent, |fraction|);
    OrZeroCanonical(whole + PadEnd(fraction, exponent));
  }

  lemma ScaledFloor(v: nat, exponent: nat, decimals: nat)
    requires decimals <= exponent
    ensures FloorScaled(v, exponent, decimals) == v * Pow10(exponent - decimals)
  {
    Pow10Split(exponent - decimals, decimals);
    CutExact(v, Pow10(exponent - decimals), Pow10(decimals));
  }

  lemma CutDown(whole: string, fraction: string, exponent: nat)
    requires AllDigits(whole) && AllDigits(fraction) && |fraction| > exponent
    ensures OrZero(whole + fraction[..exponent]) == Digits(FloorScaled(Value(whole + fraction), exponent, |fraction|))
  {
    var kept, lost := fraction[..exponent], fraction[exponent..];
    assert whole + fraction == (whole + kept) + lost;
    KeptValue(whole + fraction, |fraction|, whole + kept, lost, exponent);
    OrZeroCanonical(whole + kept);
  }

  lemma KeptValue(all: string, decimals: nat, kept: string, lost: string, exponent: nat)
    requires AllDigits(all) && all == kept + lost && AllDigits(kept) && AllDigits(lost)
    requires decimals == |lost| + exponent
    ensures FloorScaled(Value(all), exponent, decimals) == Value(kept)
  {
    ValueAppend(kept, lost);
    ValueBound(lost);
    Pow10Split(|lost|, exponent);
    CutInexact(Value(kept + lost), Pow10(|lost| + exponent), Value(kept), Pow10(|lost|), Value(lost), Pow10(exponent));
  }

  /** The two apps agree wherever the driver app accepts the amount. */
  lemma MinorUnitsAgree(whole: string, mark: string, fraction: string, exponent: nat)
    requires IsNumeral(whole) && AllDigits(fraction) && mark in {"", ".", ","} && (mark == "" ==> fraction == "")
    ensures var amount := whole + mark + fraction;
            ParseAmount(amount, exponent)
            == if |fraction| <= exponent then Some(ToMinorUnits(amount, exponent)) else None
  {
    NoSpacesIn(whole, mark, fraction);
    MatchWritten(whole, mark, fraction);
    SplitWritten(whole, mark, fraction);
    if |fraction| <= exponent { StripZerosMeaning(whole + PadEnd(fraction, exponent)); }
  }

  lemma NoSpacesIn(whole: string, mark: string, fraction: string)
    requires AllDigits(whole) && AllDigits(fraction) && mark in {"", ".", ","}
    ensures RemoveSpaces(whole + mark + fraction) == whole + mark + fraction
  {
    RemoveSpacesAppend(whole + mark, fraction);
    RemoveSpacesAppend(whole, mark);
    RemoveSpacesDigits(whole);
    RemoveSpacesDigits(fraction);
    assert RemoveSpaces(mark) == mark by { if mark != "" { assert mark[1..] == ""; } }
  }

  // ── The two formatters print the same digits ───────────────────────────────

  lemma {:induction false} PowerIsPow10(n: nat)
    ensures Power(10, n) == Pow10(n)
  {
    if n > 0 { PowerIsPow10(n - 1); }
  }

  /** A digit string split at `exponent` digits from its end is quotient and remainder. */
  lemma SplitIsDivision(padded: string, exponent: nat)
    requires AllDigits(padded) && |padded| > exponent > 0
    ensures var cut := |padded| - exponent;
            && StripZeros(padded[..cut]) == Digits(FloorDiv(Value(padded), Pow10(exponent)))
            && padded[cut..] == PadStart(Digits(FloorMod(Value(padded), Pow10(exponent))), exponent)
  {
    var cut := |padded| - exponent;
    var head, tail := padded[..cut], padded[cut..];
    assert head + tail == padded;
    ValueAppend(head, tail);
    ValueBound(tail);
    CutApart(Value(padded), Value(head), Pow10(exponent), Value(tail));
    StripZerosCanonical(head);
    PaddedRemainder(tail);
  }

  lemma CutApart(v: nat, q: nat, d: nat, r: nat)
    requires v == q * d + r && r < d
    ensures FloorDiv(v, d) == q && FloorMod(v, d) == r
  {
    DivideExactly(q, d, r);
  }

  ghost function FloorMod(n: nat, d: nat): nat
    requires d > 0
  {
    n % d
  }

  lemma PaddedRemainder(s: string)
    requires IsNumeral(s)
    ensures s == PadStart(Digits(Value(s)), |s|)
  {
    var shown := Digits(Value(s));
    DigitsValue(Value(s));
    ValueBound(s);
    if |shown| > |s| { LongerIsLarger(s, shown); }
    PaddedValue(shown, |s|);
    SameValueSameDigits(s, PadStart(shown, |s|));
  }

  /** The wire form of an integer amount: an optional sign and the digits. */
  function Signed(value: int): string {
    if value < 0 then "-" + Digits(-value) else Digits(value)
  }

  lemma WrittenAgree(abs: nat, exponent: nat, divisor: nat, group: string, mark: string)
    requires exponent > 0 && divisor == Power(10, exponent)
    ensures var padded := PadStart(Digits(abs), exponent + 1);
            var cut := |padded| - exponent;
            Written(StripZeros(padded[..cut]), padded[cut..], group, mark)
            == Group(Digits(FloorDiv(abs, divisor)), group) + (mark + PadStart(Digits(FloorMod(abs, divisor)), exponent))
  {
    PaddedDigits(abs, exponent);
    PowerIsPow10(exponent);
    SplitIsDivision(PadStart(Digits(abs), exponent + 1), exponent);
  }

  lemma PaddedDigits(abs: nat, exponent: nat)
    ensures var padded := PadStart(Digits(abs), exponent + 1);
            AllDigits(padded) && |padded| > exponent && Value(padded) == abs
  {
    DigitsValue(abs);
    PaddedValue(Digits(abs), exponent + 1);
  }

  lemma Regroup(a: string, b: string, c: string, d: string)
    ensures a + (b + (c + d)) == a + b + c + d
  {
  }

  lemma WholeAgree(abs: nat, group: string, mark: string)
    ensures var padded := PadStart(Digits(abs), 1);
            Written(StripZeros(padded[..|padded|]), padded[|padded|..], group, mark) == Group(Digits(abs), group)
  {
    var padded := PadStart(Digits(abs), 1);
    DigitsValue(abs);
    assert padded[..|padded|] == Digits(abs);
    StripZerosCanonical(Digits(abs));
  }

  /**
   * Slicing the string (driver) and dividing the integer (web) print the same amount: with the web's
   * separators put in its place, the driver's algorithm yields the web's text, for every integer.
   */
  lemma FormattersAgree(value: int, exponent: int, locale: Locale, group: string, mark: string)
    requires group == match locale case En => "," case Fr => " " case Ar => " "
    requires mark == match locale case En => "." case Fr => "," case Ar => ","
    ensures WebFormatMoney(value, exponent, locale) == FormatWith(Signed(value), if exponent < 0 then 0 else exponent, group, mark)
  {
    assert group == WebGroupMark(locale) && mark == WebDecimalMark(locale);
    if exponent <= 0 { WholesAgree(value, exponent, locale); } else { DecimalsAgree(value, exponent, locale); }
  }

  lemma WholesAgree(value: int, exponent: int, locale: Locale)
    requires exponent <= 0
    ensures WebFormatMoney(value, exponent, locale) == FormatWith(Signed(value), 0, WebGroupMark(locale), WebDecimalMark(locale))
  {
    SignedFormat(value, 0, WebGroupMark(locale), WebDecimalMark(locale));
    WholeAgree(if value < 0 then -value else value, WebGroupMark(locale), WebDecimalMark(locale));
  }

  lemma WebDivides(value: int, exponent: nat, locale: Locale)
    requires exponent > 0
    ensures var abs, divisor := if value < 0 then -value else value, Power(10, exponent);
            WebFormatMoney(value, exponent, locale)
            == (if value < 0 then "-" else "") + Group(Digits(FloorDiv(abs, divisor)), WebGroupMark(locale)) + WebDecimalMark(locale)
               + PadStart(Digits(FloorMod(abs, divisor)), exponent)
  {
  }

  lemma DecimalsAgree(value: int, exponent: nat, locale: Locale)
    requires exponent > 0
    ensures WebFormatMoney(value, exponent, locale) == FormatWith(Signed(value), exponent, WebGroupMark(locale), WebDecimalMark(locale))
  {
    var abs := if value < 0 then -value else value;
    var group, mark, divisor := WebGroupMark(locale), WebDecimalMark(locale), Power(10, exponent);
    WebDivides(value, exponent, locale);
    SignedFormat(value, exponent, group, mark);
    WrittenAgree(abs, exponent, divisor, group, mark);
    var whole, fraction := Group(Digits(FloorDiv(abs, divisor)), group), PadStart(Digits(FloorMod(abs, divisor)), exponent);
    Regroup(if value < 0 then "-" else "", whole, mark, fraction);
  }

  lemma SignedFormat(value: int, exponent: nat, group: string, mark: string)
    ensures var abs := if value < 0 then -value else value;
            var padded := PadStart(Digits(abs), exponent + 1);
            var cut := |padded| - exponent;
            FormatWith(Signed(value), exponent, group, mark)
            == (if value < 0 then "-" else "") + Written(StripZeros(padded[..cut]), padded[cut..], group, mark)
  {
    if value < 0 {
      assert Signed(value)[1..] == Digits(-value);
    } else {
      assert Signed(value)[0] == Digits(value)[0];
    }
  }
}
