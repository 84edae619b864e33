/** Durations and sizes as configuration texts. */
module Quantities {
  import opened Wrappers
  import opened References

  // ---------------------------------------------------------------------------------------------------
  // Decimal numbers

  function DigitChar(d: nat): (c: char)
    requires d < 10
    ensures Digit(c)
  {
    '0' + d as char
  }

  function Digits(n: nat): (text: string)
    ensures text != ""
  {
    if n < 10 then [DigitChar(n)] else Digits(n / 10) + [DigitChar(n % 10)]
  }

  predicate Decimal(text: string) {
    forall k :: 0 <= k < |text| ==> Digit(text[k])
  }

  function Number(text: string): (n: nat)
    requires Decimal(text)
  {
    if text == "" then 0 else 10 * Number(text[..|text| - 1]) + (text[|text| - 1] - '0') as nat
  }

  function Power(base: nat, k: nat): (p: nat) {
    if k == 0 then 1 else base * Power(base, k - 1)
  }

  lemma {:induction false} NumberOfDigits(n: nat)
    ensures Decimal(Digits(n)) && Number(Digits(n)) == n
    ensures n > 0 ==> Digits(n)[0] != '0'
  {
    var text := Digits(n);
    if n < 10 {
      assert text[..0] == "";
    } else {
      NumberOfDigits(n / 10);
      assert text[..|text| - 1] == Digits(n / 10);
      assert text[0] == Digits(n / 10)[0];
    }
  }

  lemma {:induction false} DigitsAreShort(n: nat, k: nat)
    requires 1 <= k && n < Power(10, k)
    ensures |Digits(n)| <= k
  {
    if n >= 10 {
      assert Power(10, 1) == 10 * Power(10, 0);
      DigitsAreShort(n / 10, k - 1);
    }
  }

  // ---------------------------------------------------------------------------------------------------
  // Durations

  const MAX_TEXT := 32
  const MAX_SECONDS := 3155760000

  function LeadingDigits(text: string): (n: nat)
    ensures n <= |text| && Decimal(text[..n]) && (n < |text| ==> !Digit(text[n]))
  {
    if text != "" && Digit(text[0]) then
      var n := 1 + LeadingDigits(text[1..]);
      assert forall k :: 1 <= k < n ==> text[k] == text[1..][k - 1];
      n
    else 0
  }

  /** One optional component: its number, or zero, and the rest of the text. */
  function Component(text: string, mark: char): (r: (nat, string)) {
    var n := LeadingDigits(text);
    if 0 < n < |text| && text[n] == mark then (Number(text[..n]), text[n + 1..]) else (0, text)
  }

  /** Hours, minutes and seconds in this order, and what is left of the text. */
  function Fields(text: string): (r: (nat, nat, nat, string)) {
    var (h, afterHours) := Component(text, 'h');
    var (m, afterMinutes) := Component(afterHours, 'm');
    var (s, rest) := Component(afterMinutes, 's');
    (h, m, s, rest)
  }

  function Total(h: nat, m: nat, s: nat): (seconds: nat) {
    3600 * h + 60 * m + s
  }

  /** The seconds that the fields of a text stand for. */
  function Seconds(fields: (nat, nat, nat, string)): (seconds: Option<nat>)
    ensures seconds.Some? ==> 0 < seconds.value <= MAX_SECONDS
  {
    var seconds := Total(fields.0, fields.1, fields.2);
    if fields.3 != "" || !(0 < seconds <= MAX_SECONDS) then None else Some(seconds)
  }

  /** The seconds that a duration text stands for. */
  function Duration(text: string): (seconds: Option<nat>)
    ensures seconds.Some? ==> 0 < seconds.value <= MAX_SECONDS
  {
    if |text| > MAX_TEXT then None else Seconds(Fields(text))
  }

  lemma {:induction false} LeadingDigitsOf(digits: string, mark: char, rest: string)
    requires Decimal(digits) && !Digit(mark)
    ensures LeadingDigits(digits + ([mark] + rest)) == |digits|
  {
    var text := digits + ([mark] + rest);
    if digits != "" {
      LeadingDigitsOf(digits[1..], mark, rest);
      assert text[1..] == digits[1..] + ([mark] + rest);
    }
  }

  /** One component as written: digits and their mark, or nothing. */
  function Part(digits: string, mark: char): (text: string) {
    if digits == "" then "" else digits + [mark]
  }

  /** A text of the duration grammar. */
  function Parts(h: string, m: string, s: string): (text: string) {
    Part(h, 'h') + (Part(m, 'm') + Part(s, 's'))
  }

  lemma PresentComponent(digits: string, mark: char, rest: string)
    requires Decimal(digits) && digits != "" && !Digit(mark)
    ensures Component(Part(digits, mark) + rest, mark) == (Number(digits), rest)
    ensures forall other :: other != mark ==> Component(Part(digits, mark) + rest, other) == (0, Part(digits, mark) + rest)
  {
    var text := Part(digits, mark) + rest;
    assert text == digits + ([mark] + rest);
    LeadingDigitsOf(digits, mark, rest);
    assert text[..|digits|] == digits && text[|digits| + 1..] == rest && text[|digits|] == mark;
  }

  lemma ReadSeconds(s: string)
    requires Decimal(s)
    ensures Component(Part(s, 's'), 's') == (Number(s), "")
    ensures Component(Part(s, 's'), 'm') == (0, Part(s, 's')) && Component(Part(s, 's'), 'h') == (0, Part(s, 's'))
  {
    assert Part(s, 's') + "" == Part(s, 's');
    if s != "" {
      PresentComponent(s, 's', "");
    }
  }

  lemma ReadMinutes(m: string, s: string)
    requires Decimal(m) && Decimal(s)
    ensures Component(Part(m, 'm') + Part(s, 's'), 'm') == (Number(m), Part(s, 's'))
    ensures Component(Part(m, 'm') + Part(s, 's'), 'h') == (0, Part(m, 'm') + Part(s, 's'))
  {
    ReadSeconds(s);
    if m == "" {
      assert Part(m, 'm') + Part(s, 's') == Part(s, 's');
    } else {
      PresentComponent(m, 'm', Part(s, 's'));
    }
  }

  lemma FieldsOf(h: string, m: string, s: string)
    requires Decimal(h) && Decimal(m) && Decimal(s)
    ensures Fields(Parts(h, m, s)) == (Number(h), Number(m), Number(s), "")
  {
    var rest := Part(m, 'm') + Part(s, 's');
    ReadSeconds(s);
    ReadMinutes(m, s);
    if h == "" {
      assert Parts(h, m, s) == rest;
    } else {
      PresentComponent(h, 'h', rest);
    }
    assert Component(Parts(h, m, s), 'h') == (Number(h), rest);
  }

  /** Every text of the grammar means its hours, minutes and seconds, if it is short enough and in range. */
  lemma DurationReads(h: string, m: string, s: string)
    requires Decimal(h) && Decimal(m) && Decimal(s)
    ensures var total := Total(Number(h), Number(m), Number(s));
            Duration(Parts(h, m, s)) ==
            if |Parts(h, m, s)| <= MAX_TEXT && 0 < total <= MAX_SECONDS then Some(total) else None
  {
    FieldsOf(h, m, s);
    FieldsMean(Number(h), Number(m), Number(s));
  }

  lemma FieldsMean(h: nat, m: nat, s: nat)
    ensures var total := Total(h, m, s);
            Seconds((h, m, s, "")) == if 0 < total <= MAX_SECONDS then Some(total) else None
  {
  }

  lemma ComponentIsPart(text: string, mark: char) returns (digits: string)
    requires !Digit(mark)
    ensures Decimal(digits) && text == Part(digits, mark) + Component(text, mark).1
    ensures Component(text, mark).0 == Number(digits)
  {
    var n := LeadingDigits(text);
    if 0 < n < |text| && text[n] == mark {
      digits := text[..n];
      assert text == digits + [mark] + text[n + 1..];
    } else {
      digits := "";
      assert "" + text == text;
    }
  }

  lemma FieldsAreParts(text: string) returns (h: string, m: string, s: string)
    requires Fields(text).3 == ""
    ensures Decimal(h) && Decimal(m) && Decimal(s) && text == Parts(h, m, s)
    ensures Fields(text) == (Number(h), Number(m), Number(s), "")
  {
    var afterHours := Component(text, 'h').1;
    var afterMinutes := Component(afterHours, 'm').1;
    h := ComponentIsPart(text, 'h');
    m := ComponentIsPart(afterHours, 'm');
    s := ComponentIsPart(afterMinutes, 's');
    assert afterMinutes == Part(s, 's') + "" == Part(s, 's');
  }

  /** Nothing else is accepted: an accepted text is of the grammar. */
  lemma DurationAccepts(text: string) returns (h: string, m: string, s: string)
    requires Duration(text).Some?
    ensures Decimal(h) && Decimal(m) && Decimal(s) && text == Parts(h, m, s) && |text| <= MAX_TEXT
    ensures Duration(text) == Some(Total(Number(h), Number(m), Number(s)))
  {
    h, m, s := FieldsAreParts(text);
    DurationReads(h, m, s);
  }

  /** Hours, minutes and seconds, each with its mark. */
  function DurationText(seconds: nat): (text: string) {
    Parts(Digits(seconds / 3600), Digits(seconds / 60 % 60), Digits(seconds % 60))
  }

  lemma SplitSeconds(seconds: nat)
    ensures Total(seconds / 3600, seconds / 60 % 60, seconds % 60) == seconds
  {
    var minutes := seconds / 60;
    assert seconds == 60 * minutes + seconds % 60;
    assert minutes == 60 * (minutes / 60) + minutes % 60;
    assert minutes / 60 == seconds / 3600;
  }

  /** Every duration in range has a text that is short enough to be read and means it. */
  lemma DurationRoundTrip(seconds: nat)
    requires 0 < seconds <= MAX_SECONDS
    ensures |DurationText(seconds)| <= MAX_TEXT && Duration(DurationText(seconds)) == Some(seconds)
  {
    var h, m, s := seconds / 3600, seconds / 60 % 60, seconds % 60;
    SplitSeconds(seconds);
    PowersOfTen();
    ShortNumber(h, 6);
    ShortNumber(m, 2);
    ShortNumber(s, 2);
    ShortParts(Digits(h), Digits(m), Digits(s));
  }

  lemma ShortNumber(n: nat, k: nat)
    requires 1 <= k && n < Power(10, k)
    ensures Decimal(Digits(n)) && Number(Digits(n)) == n && |Digits(n)| <= k
  {
    NumberOfDigits(n);
    DigitsAreShort(n, k);
  }

  lemma ShortParts(h: string, m: string, s: string)
    requires Decimal(h) && Decimal(m) && Decimal(s) && |h| <= 6 && |m| <= 2 && |s| <= 2
    requires 0 < Total(Number(h), Number(m), Number(s)) <= MAX_SECONDS
    ensures |Parts(h, m, s)| <= MAX_TEXT
    ensures Duration(Parts(h, m, s)) == Some(Total(Number(h), Number(m), Number(s)))
  {
    DurationReads(h, m, s);
  }

  lemma PowersOfTen()
    ensures Power(10, 2) == 100 && Power(10, 6) == 1000000 && Power(10, 16) == 10000000000000000
  {
    assert Power(10, 1) == 10 * Power(10, 0);
    assert Power(10, 4) == 10 * Power(10, 3) == 10 * (10 * Power(10, 2));
    assert Power(10, 6) == 10 * Power(10, 5) == 10 * (10 * Power(10, 4));
    assert Power(10, 8) == 10 * Power(10, 7) == 10 * (10 * Power(10, 6));
    assert Power(10, 10) == 10 * Power(10, 9) == 10 * (10 * Power(10, 8));
    assert Power(10, 12) == 10 * Power(10, 11) == 10 * (10 * Power(10, 10));
    assert Power(10, 14) == 10 * Power(10, 13) == 10 * (10 * Power(10, 12));
    assert Power(10, 16) == 10 * Power(10, 15) == 10 * (10 * Power(10, 14));
  }

  // ---------------------------------------------------------------------------------------------------
  // Sizes

  const MAX_EXACT := 0x1F_FFFF_FFFF_FFFF

  function Lowercase(c: char): char {
    if Upper(c) then (c - 'A') + 'a' else c
  }

  function Lowered(text: string): (r: string) {
    seq(|text|, i requires 0 <= i < |text| => Lowercase(text[i]))
  }

  /** The power of 1024 that a unit stands for. */
  function UnitPower(mark: string): (k: Option<nat>)
    ensures k.Some? ==> k.value <= 4
  {
    if mark == "b" then Some(0)
    else if mark == "kb" then Some(1)
    else if mark == "mb" then Some(2)
    else if mark == "gb" then Some(3)
    else if mark == "tb" then Some(4)
    else None
  }

  /** The bytes that a size text stands for. */
  function SpaceBytes(text: string): (bytes: Option<nat>) {
    var low := Lowered(text);
    var n := LeadingDigits(low);
    if |text| > MAX_TEXT || n == 0 || low[0] == '0' || UnitPower(low[n..]) == None then None
    else
      var bytes := Number(low[..n]) * Power(1024, UnitPower(low[n..]).value);
      if bytes > MAX_EXACT then None else Some(bytes)
  }

  lemma {:induction false} PowerIsPositive(base: nat, k: nat)
    requires base > 0
    ensures Power(base, k) > 0
  {
    if k > 0 {
      PowerIsPositive(base, k - 1);
    }
  }

  lemma {:induction false} LeadingDigitCounts(text: string)
    requires text != "" && Decimal(text) && text[0] != '0'
    ensures Number(text) > 0
  {
    if |text| > 1 {
      LeadingDigitCounts(text[..|text| - 1]);
    } else {
      assert text[..0] == "";
    }
  }

  /** An accepted size is a whole multiple of a power of 1024; neither the number written nor the product goes
      beyond what 53 bits hold exactly. */
  lemma AcceptedSizesAreExact(text: string)
    requires SpaceBytes(text).Some?
    ensures 1 <= SpaceBytes(text).value <= MAX_EXACT
    ensures var n := LeadingDigits(Lowered(text));
            1 <= Number(Lowered(text)[..n]) <= SpaceBytes(text).value
  {
    var low := Lowered(text);
    var n := LeadingDigits(low);
    var number, power := Number(low[..n]), Power(1024, UnitPower(low[n..]).value);
    LeadingDigitCounts(low[..n]);
    PowerIsPositive(1024, UnitPower(low[n..]).value);
    TimesPositive(number, power);
  }

  lemma TimesPositive(number: nat, power: nat)
    requires number >= 1 && power >= 1
    ensures number * power >= number
  {
  }

  function Unit(k: nat): (mark: string)
    requires k <= 4
    ensures UnitPower(mark) == Some(k)
  {
    ["b", "kb", "mb", "gb", "tb"][k]
  }

  lemma LowerIsLowered(text: string)
    requires forall i :: 0 <= i < |text| ==> !Upper(text[i])
    ensures Lowered(text) == text
  {
  }

  lemma UnitIsLower(k: nat)
    requires k <= 4
    ensures Unit(k) != "" && forall i :: 0 <= i < |Unit(k)| ==> !Upper(Unit(k)[i]) && !Digit(Unit(k)[i])
  {
  }

  lemma UnitText(digits: string, mark: string)
    requires Decimal(digits) && mark != "" && forall i :: 0 <= i < |mark| ==> !Upper(mark[i]) && !Digit(mark[i])
    ensures Lowered(digits + mark) == digits + mark && LeadingDigits(digits + mark) == |digits|
  {
    assert mark == [mark[0]] + mark[1..];
    LeadingDigitsOf(digits, mark[0], mark[1..]);
    forall i | 0 <= i < |digits + mark|
      ensures !Upper((digits + mark)[i])
    {
      assert i < |digits| ==> Digit(digits[i]);
    }
    LowerIsLowered(digits + mark);
  }

  /** A number without leading zero and a unit mean the number times a power of 1024, if that is exact. */
  lemma SizeReads(digits: string, k: nat)
    requires Decimal(digits) && digits != "" && digits[0] != '0' && k <= 4
    ensures var bytes := Number(digits) * Power(1024, k);
            SpaceBytes(digits + Unit(k)) == if |digits + Unit(k)| <= MAX_TEXT && bytes <= MAX_EXACT then Some(bytes) else None
  {
    var text := digits + Unit(k);
    UnitIsLower(k);
    UnitText(digits, Unit(k));
    assert text[..|digits|] == digits && text[|digits|..] == Unit(k);
  }

  /** Nothing else is accepted, besides the same in upper case. */
  lemma SizeAccepts(text: string) returns (digits: string, k: nat)
    requires SpaceBytes(text).Some?
    ensures Decimal(digits) && digits != "" && digits[0] != '0' && k <= 4 && Lowered(text) == digits + Unit(k)
    ensures SpaceBytes(text) == Some(Number(digits) * Power(1024, k)) && |text| <= MAX_TEXT
  {
    var low := Lowered(text);
    var n := LeadingDigits(low);
    digits, k := low[..n], UnitPower(low[n..]).value;
    assert low == low[..n] + low[n..];
  }

  /** Every exact size has a text that means it. */
  lemma SizeRoundTrip(bytes: nat)
    requires 1 <= bytes <= MAX_EXACT
    ensures SpaceBytes(Digits(bytes) + "b") == Some(bytes)
  {
    NumberOfDigits(bytes);
    PowersOfTen();
    DigitsAreShort(bytes, 16);
    SizeReads(Digits(bytes), 0);
    assert Power(1024, 0) == 1 && Unit(0) == "b";
  }
}
