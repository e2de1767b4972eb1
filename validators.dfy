/**
 * The input checks of the registration steps: the three-part name, the birth
 * year, the phone number's pre-normalisation and the e-mail pattern.
 */
module Validators {
  import opened Wrappers
  import opened Strings

  /** A full name as `get_full_name` and the transfer step accept it (already
      stripped): at least three white-space separated parts and at most 50 characters. */
  predicate IsFullName(name: string) {
    |Split(name)| >= 3 && |name| <= 50
  }

  // ---------------------------------------------------------------------------
  // int(text) and validate_birth_year.

  predicate IsDigit(c: char) {
    '0' <= c <= '9'
  }

  predicate InRun(c: char, zero: int) {
    zero <= c as int < zero + 10
  }

  /** The decimal digits, zero to nine, that `int()` reads come in runs of ten
      consecutive code points: the characters of Unicode general category Nd
      (Unicode 15.0). `c` is one exactly when it lies in the run that starts
      at the last run start not above it, which is the value returned. */
  function RunZero(c: char): (r: Option<int>)
    ensures r.Some? ==> InRun(c, r.value)
  {
    var x := c as int;
    var z :=
      if x < 0x0660 then 0x0030
      else if x < 0x06F0 then 0x0660
      else if x < 0x07C0 then 0x06F0
      else if x < 0x0966 then 0x07C0
      else if x < 0x09E6 then 0x0966
      else if x < 0x0A66 then 0x09E6
      else if x < 0x0AE6 then 0x0A66
      else if x < 0x0B66 then 0x0AE6
      else if x < 0x0BE6 then 0x0B66
      else if x < 0x0C66 then 0x0BE6
      else if x < 0x0CE6 then 0x0C66
      else if x < 0x0D66 then 0x0CE6
      else if x < 0x0DE6 then 0x0D66
      else if x < 0x0E50 then 0x0DE6
      else if x < 0x0ED0 then 0x0E50
      else if x < 0x0F20 then 0x0ED0
      else if x < 0x1040 then 0x0F20
      else if x < 0x1090 then 0x1040
      else if x < 0x17E0 then 0x1090
      else if x < 0x1810 then 0x17E0
      else if x < 0x1946 then 0x1810
      else if x < 0x19D0 then 0x1946
      else if x < 0x1A80 then 0x19D0
      else if x < 0x1A90 then 0x1A80
      else if x < 0x1B50 then 0x1A90
      else if x < 0x1BB0 then 0x1B50
      else if x < 0x1C40 then 0x1BB0
      else if x < 0x1C50 then 0x1C40
      else if x < 0xA620 then 0x1C50
      else if x < 0xA8D0 then 0xA620
      else if x < 0xA900 then 0xA8D0
      else if x < 0xA9D0 then 0xA900
      else if x < 0xA9F0 then 0xA9D0
      else if x < 0xAA50 then 0xA9F0
      else if x < 0xABF0 then 0xAA50
      else if x < 0xFF10 then 0xABF0
      else if x < 0x104A0 then 0xFF10
      else if x < 0x10D30 then 0x104A0
      else if x < 0x11066 then 0x10D30
      else if x < 0x110F0 then 0x11066
      else if x < 0x11136 then 0x110F0
      else if x < 0x111D0 then 0x11136
      else if x < 0x112F0 then 0x111D0
      else if x < 0x11450 then 0x112F0
      else if x < 0x114D0 then 0x11450
      else if x < 0x11650 then 0x114D0
      else if x < 0x116C0 then 0x11650
      else if x < 0x11730 then 0x116C0
      else if x < 0x118E0 then 0x11730
      else if x < 0x11950 then 0x118E0
      else if x < 0x11C50 then 0x11950
      else if x < 0x11D50 then 0x11C50
      else if x < 0x11DA0 then 0x11D50
      else if x < 0x11F50 then 0x11DA0
      else if x < 0x16A60 then 0x11F50
      else if x < 0x16AC0 then 0x16A60
      else if x < 0x16B50 then 0x16AC0
      else if x < 0x1D7CE then 0x16B50
      else if x < 0x1D7D8 then 0x1D7CE
      else if x < 0x1D7E2 then 0x1D7D8
      else if x < 0x1D7EC then 0x1D7E2
      else if x < 0x1D7F6 then 0x1D7EC
      else if x < 0x1E140 then 0x1D7F6
      else if x < 0x1E2F0 then 0x1E140
      else if x < 0x1E4F0 then 0x1E2F0
      else if x < 0x1E950 then 0x1E4F0
      else if x < 0x1FBF0 then 0x1E950
      else 0x1FBF0;
    if InRun(c, z) then Some(z) else None
  }

  /** A decimal digit of any script. */
  predicate IsDecimal(c: char) {
    IsDigit(c) || RunZero(c).Some?
  }

  function DigitValue(c: char): (d: nat)
    requires IsDecimal(c)
    ensures d < 10
    ensures IsDigit(c) ==> d == c as int - '0' as int
  {
    if IsDigit(c) then c as int - '0' as int else c as int - RunZero(c).value
  }

  /** The digits of a numeral with single underscores between them
      (the grouping Python accepts since version 3.6). */
  predicate IsNumeral(s: string) {
    |s| > 0 && IsDecimal(s[0]) && IsDecimal(s[|s| - 1]) &&
    (forall i :: 0 <= i < |s| ==> IsDecimal(s[i]) || s[i] == '_') &&
    (forall i :: 0 <= i < |s| - 1 ==> s[i] == '_' ==> IsDecimal(s[i + 1]))
  }

  /** The value of a numeral, most significant digit first, underscores skipped. */
  function NumeralValue(s: string): nat
    requires forall i :: 0 <= i < |s| ==> IsDecimal(s[i]) || s[i] == '_'
  {
    if |s| == 0 then 0
    else
      var v := NumeralValue(s[..|s| - 1]);
      if s[|s| - 1] == '_' then v else 10 * v + DigitValue(s[|s| - 1])
  }

  /** The white space `int()` skips around a numeral. A non-ASCII character
      counts when `str.isspace()` holds of it; an ASCII one only when C's
      `isspace` does, so the separators U+001C to U+001F are not skipped. */
  predicate IsIntSpace(c: char) {
    IsSpace(c) && !('\U{001C}' <= c <= '\U{001F}')
  }

  /** The leading white space `int()` skips. */
  function IntStripLeft(s: string): (r: string)
    ensures |r| <= |s| && r == s[|s| - |r|..]
    ensures r == [] || !IsIntSpace(r[0])
    ensures forall i :: 0 <= i < |s| - |r| ==> IsIntSpace(s[i])
  {
    if |s| > 0 && IsIntSpace(s[0]) then IntStripLeft(s[1..]) else s
  }

  /** The trailing white space `int()` skips. */
  function IntStripRight(s: string): (r: string)
    ensures |r| <= |s| && r == s[..|r|]
    ensures r == [] || !IsIntSpace(r[|r| - 1])
    ensures forall i :: |r| <= i < |s| ==> IsIntSpace(s[i])
  {
    if |s| > 0 && IsIntSpace(s[|s| - 1]) then IntStripRight(s[..|s| - 1]) else s
  }

  function IntStrip(s: string): string {
    IntStripRight(IntStripLeft(s))
  }

  /** Python's `int(text)` in base 10: surrounding white space, an optional
      sign, then a numeral in the digits of any one or more scripts. */
  function ParseInt(text: string): (r: Option<int>) {
    var t := IntStrip(text);
    if |t| > 0 && (t[0] == '+' || t[0] == '-') then
      var ds := t[1..];
      if IsNumeral(ds) then
        var v: int := NumeralValue(ds);
        Some(if t[0] == '-' then -v else v)
      else None
    else if IsNumeral(t) then Some(NumeralValue(t))
    else None
  }

  /** `str(n)` for a natural number. */
  function Decimal(n: nat): (s: string)
    ensures IsNumeral(s) && NumeralValue(s) == n
    ensures forall i :: 0 <= i < |s| ==> IsDigit(s[i])
  {
    var c := ('0' as int + n % 10) as char;
    if n < 10 then [c]
    else
      var s := Decimal(n / 10) + [c];
      assert s[..|s| - 1] == Decimal(n / 10);
      s
  }

  /** `int(str(n)) == n` */
  lemma ParseDecimal(n: nat)
    ensures ParseInt(Decimal(n)) == Some(n)
  {
    var s := Decimal(n);
    assert IntStrip(s) == s by {
      assert !IsIntSpace(s[0]) && !IsIntSpace(s[|s| - 1]);
    }
  }

  /** Stripped text that is a numeral, with no sign, is read as its value. */
  lemma NumeralRead(t: string)
    requires IntStrip(t) == t && IsNumeral(t) && t[0] != '+' && t[0] != '-'
    ensures ParseInt(t) == Some(NumeralValue(t))
  {
  }

  /** Underscores may group the digits. */
  lemma GroupedDigitsRead()
    ensures ParseInt("1_990") == Some(1990)
  {
    var one, us, nine, zero := '1', '_', '9', '0';
    var t := [one, us, nine, nine, zero];
    assert t == "1_990";
    assert IntStrip(t) == t by {
      assert !IsIntSpace(t[0]) && !IsIntSpace(t[|t| - 1]);
    }
    assert DigitValue(one) == 1 && DigitValue(nine) == 9 && DigitValue(zero) == 0 && !IsDecimal(us);
    assert IsNumeral(t);
    assert NumeralValue(t) == 1990 by {
      assert NumeralValue([one]) == 1;
      assert NumeralValue([one, us]) == 1 by { assert [one, us][..1] == [one]; }
      assert NumeralValue([one, us, nine]) == 19 by { assert [one, us, nine][..2] == [one, us]; }
      assert NumeralValue([one, us, nine, nine]) == 199 by { assert [one, us, nine, nine][..3] == [one, us, nine]; }
      assert t[..4] == [one, us, nine, nine];
    }
    NumeralRead(t);
  }

  /** Full-width digits read as their values. */
  lemma FullWidthDigitsRead()
    ensures ParseInt([0xFF11 as char, 0xFF19 as char, 0xFF19 as char, 0xFF10 as char]) == Some(1990)
  {
    var one, nine, zero := 0xFF11 as char, 0xFF19 as char, 0xFF10 as char;
    var t := [one, nine, nine, zero];
    assert IntStrip(t) == t by {
      assert !IsIntSpace(t[0]) && !IsIntSpace(t[|t| - 1]);
    }
    assert DigitValue(one) == 1 && DigitValue(nine) == 9 && DigitValue(zero) == 0;
    assert IsNumeral(t);
    assert NumeralValue(t) == 1990 by {
      assert NumeralValue([one]) == 1;
      assert NumeralValue([one, nine]) == 19 by { assert [one, nine][..1] == [one]; }
      assert NumeralValue([one, nine, nine]) == 199 by { assert [one, nine, nine][..2] == [one, nine]; }
      assert t[..3] == [one, nine, nine];
    }
    NumeralRead(t);
  }

  /** Surrounding white space and a sign are read around Arabic-Indic digits. */
  lemma SignedArabicDigitsRead()
    ensures ParseInt([' ', '-', 0x0664 as char, 0x0662 as char, '\n']) == Some(-42)
  {
    var four, two := 0x0664 as char, 0x0662 as char;
    var t := [' ', '-', four, two, '\n'];
    var u := ['-', four, two];
    assert IntStripLeft(t) == t[1..] by {
      assert IsIntSpace(t[0]) && !IsIntSpace(t[1]);
    }
    assert IntStripRight(t[1..]) == u by {
      assert IsIntSpace('\n') && !IsIntSpace(two) && t[1..][..3] == u;
    }
    assert IntStrip(t) == u;
    assert DigitValue(four) == 4 && DigitValue(two) == 2;
    assert u[1..] == [four, two] && IsNumeral([four, two]);
    assert NumeralValue([four]) == 4;
    assert NumeralValue([four, two]) == 42 by { assert [four, two][..1] == [four]; }
  }

  /** Stripped text that is not a numeral after its optional sign is refused. */
  lemma NonNumeralRefused(t: string)
    requires IntStrip(t) == t
    requires |t| > 0 && (t[0] == '+' || t[0] == '-') ==> !IsNumeral(t[1..])
    requires !(|t| > 0 && (t[0] == '+' || t[0] == '-')) ==> !IsNumeral(t)
    ensures ParseInt(t) == None
  {
  }

  /** Misplaced underscores are refused. */
  lemma MisplacedUnderscoresRefused()
    ensures ParseInt("_1") == None && ParseInt("1_") == None && ParseInt("1__0") == None
  {
    var a, b, c := "_1", "1_", "1__0";
    assert IntStrip(a) == a by { assert !IsIntSpace(a[0]) && !IsIntSpace(a[|a| - 1]); }
    assert IntStrip(b) == b by { assert !IsIntSpace(b[0]) && !IsIntSpace(b[|b| - 1]); }
    assert IntStrip(c) == c by { assert !IsIntSpace(c[0]) && !IsIntSpace(c[|c| - 1]); }
    assert !IsDecimal('_') && c[1] == '_' && c[2] == '_';
    NonNumeralRefused(a);
    NonNumeralRefused(b);
    NonNumeralRefused(c);
  }

  /** A sign must be followed at once by the digits. */
  lemma BareSignRefused()
    ensures ParseInt("- 1") == None && ParseInt("+") == None
  {
    var d, e := "- 1", "+";
    assert IntStrip(d) == d by { assert !IsIntSpace(d[0]) && !IsIntSpace(d[|d| - 1]); }
    assert IntStrip(e) == e by { assert !IsIntSpace(e[0]); }
    assert !IsNumeral(d[1..]) by { assert d[1..][0] == ' ' && !IsDecimal(' '); }
    assert e[1..] == [];
    NonNumeralRefused(d);
    NonNumeralRefused(e);
  }

  /** A separator U+001C to U+001F anywhere in the text makes `int()` fail. */
  lemma SeparatorRefused(s: string, i: nat)
    requires i < |s| && '\U{001C}' <= s[i] <= '\U{001F}'
    ensures ParseInt(s) == None
  {
    var l := IntStripLeft(s);
    var t := IntStrip(s);
    var k := i - (|s| - |l|);
    assert !IsIntSpace(s[i]) && !IsDecimal(s[i]);
    assert 0 <= k < |t| && t[k] == s[i];
    if |t| > 0 && (t[0] == '+' || t[0] == '-') {
      assert t[1..][k - 1] == s[i];
    }
  }

  /** `int("\x1c1990")` fails, so that birth year is refused. */
  lemma SeparatorBeforeYearRefused(currentYear: int)
    ensures ParseInt(['\U{001C}', '1', '9', '9', '0']) == None
    ensures !ValidateBirthYear(['\U{001C}', '1', '9', '9', '0'], currentYear).0
  {
    SeparatorRefused(['\U{001C}', '1', '9', '9', '0'], 0);
  }

  /** `validate_birth_year(year)` with the year of the clock as a parameter: the
      verdict and, when the text is a number, its value. */
  function ValidateBirthYear(year: string, currentYear: int): (r: (bool, Option<int>))
    ensures r.0 ==> r.1.Some? && 1920 <= r.1.value <= currentYear - 13
    ensures r.1.Some? && 1920 <= r.1.value <= currentYear - 13 ==> r.0
    ensures r.1 == ParseInt(year)
  {
    match ParseInt(year)
    case None => (false, None)
    case Some(y) => (1920 <= y <= currentYear - 13, Some(y))
  }

  /** A year written in digits is accepted exactly when it lies in the window
      from 1920 to thirteen years before the current year. */
  lemma BirthYearWindow(y: nat, currentYear: int)
    ensures ValidateBirthYear(Decimal(y), currentYear).0 <==> 1920 <= y <= currentYear - 13
  {
    ParseDecimal(y);
  }

  /** A year written in full-width digits is read and judged like any other. */
  lemma FullWidthBirthYear(currentYear: int)
    requires currentYear >= 2003
    ensures ValidateBirthYear([0xFF11 as char, 0xFF19 as char, 0xFF19 as char, 0xFF10 as char], currentYear) == (true, Some(1990))
  {
    FullWidthDigitsRead();
  }

  // ---------------------------------------------------------------------------
  // validate_phone_with_country, up to the phone-number library.

  /** The characters `re.sub(r'[\s\-\(\)]', '', ...)` removes. */
  predicate IsPhoneFiller(c: char) {
    IsSpace(c) || c == '-' || c == '(' || c == ')'
  }

  /** The number with white space, dashes and parentheses removed. */
  function RemoveFillers(s: string): (r: string)
    ensures forall i :: 0 <= i < |r| ==> !IsPhoneFiller(r[i])
    ensures |r| <= |s|
  {
    if |s| == 0 then []
    else if IsPhoneFiller(s[0]) then RemoveFillers(s[1..])
    else [s[0]] + RemoveFillers(s[1..])
  }

  /** A number without fillers is left as it is. */
  lemma {:induction false} RemoveFillersUnchanged(s: string)
    requires forall i :: 0 <= i < |s| ==> !IsPhoneFiller(s[i])
    ensures RemoveFillers(s) == s
  {
    if |s| > 0 {
      RemoveFillersUnchanged(s[1..]);
    }
  }

  /** Removing fillers keeps the other characters in order. */
  lemma {:induction false} RemoveFillersConcat(a: string, b: string)
    ensures RemoveFillers(a + b) == RemoveFillers(a) + RemoveFillers(b)
  {
    if |a| > 0 {
      assert (a + b)[1..] == a[1..] + b;
      RemoveFillersConcat(a[1..], b);
    } else {
      assert a + b == b;
    }
  }

  /** The text handed to the phone-number parser: fillers removed, and the
      country's calling code put in front unless the number starts with `+`. */
  function PhoneCandidate(phone: string, countryCode: string): string {
    var p := RemoveFillers(phone);
    if StartsWith(p, "+") then p else countryCode + p
  }

  /** `validate_phone_with_country`: the E.164 form when the parser accepts the
      candidate. Parsing and validity come from the phone-number library, given
      here as `e164`. */
  function ValidatePhone(phone: string, countryCode: string, e164: string -> Option<string>): Option<string> {
    e164(PhoneCandidate(phone, countryCode))
  }

  /** A local number typed with spaces or dashes reaches the parser as the
      country code followed by its digits. */
  lemma LocalNumberGetsCountryCode(phone: string, countryCode: string)
    requires |RemoveFillers(phone)| > 0 && RemoveFillers(phone)[0] != '+'
    ensures PhoneCandidate(phone, countryCode) == countryCode + RemoveFillers(phone)
  {
  }

  /** An international number keeps its own code however it is spaced. */
  lemma InternationalNumberKept(rest: string, countryCode: string)
    ensures PhoneCandidate("+" + rest, countryCode) == "+" + RemoveFillers(rest)
  {
    RemoveFillersConcat("+", rest);
    assert RemoveFillers("+") == "+";
  }

  // ---------------------------------------------------------------------------
  // validate_email: ^[a-zA-Z0-9._%+-]+@[a-zA-Z0-9.-]+\.[a-zA-Z]{2,}$

  predicate IsLetter(c: char) {
    'a' <= c <= 'z' || 'A' <= c <= 'Z'
  }

  predicate IsLocalChar(c: char) {
    IsLetter(c) || IsDigit(c) || c == '.' || c == '_' || c == '%' || c == '+' || c == '-'
  }

  predicate IsDomainChar(c: char) {
    IsLetter(c) || IsDigit(c) || c == '.' || c == '-'
  }

  predicate AllLocal(s: string) {
    forall i :: 0 <= i < |s| ==> IsLocalChar(s[i])
  }

  predicate AllDomain(s: string) {
    forall i :: 0 <= i < |s| ==> IsDomainChar(s[i])
  }

  predicate AllLetters(s: string) {
    forall i :: 0 <= i < |s| ==> IsLetter(s[i])
  }

  /** `[a-zA-Z0-9.-]+\.[a-zA-Z]{2,}` matches all of `d`. */
  predicate IsDomain(d: string) {
    exists k :: 1 <= k && k + 3 <= |d| && d[k] == '.' && AllDomain(d[..k]) && AllLetters(d[k + 1..])
  }

  /** The whole pattern up to `$`: the local part cannot hold `@`, so it ends at the first one. */
  predicate MatchesEmail(e: string) {
    match Find(e, "@")
    case None => false
    case Some(i) => i >= 1 && AllLocal(e[..i]) && IsDomain(e[i + 1..])
  }

  /** `validate_email`: `re.match` with `$`, which also matches before a final newline. */
  predicate IsEmail(e: string) {
    MatchesEmail(e) || (|e| > 0 && e[|e| - 1] == '\n' && MatchesEmail(e[..|e| - 1]))
  }

  /** `e` is a local part ending before index `i`, `@`, a host of `k` characters, `.`
      and a top-level domain of two or more letters. */
  predicate EmailShape(e: string, i: nat, k: nat) {
    0 < i && 1 <= k && i + 1 + k + 3 <= |e| && e[i] == '@' && e[i + 1 + k] == '.' &&
    AllLocal(e[..i]) && AllDomain(e[i + 1..i + 1 + k]) && AllLetters(e[i + 1 + k + 1..])
  }

  /** Every address of that shape is accepted. */
  lemma EmailAccepts(e: string, i: nat, k: nat)
    requires EmailShape(e, i, k)
    ensures IsEmail(e)
  {
    assert e[i..i + 1] == "@";
    forall j: nat | j < i ensures !OccursAt(e, "@", j) {
      assert e[..i][j] == e[j];
      assert IsLocalChar(e[j]);
      assert e[j..j + 1][0] == e[j];
    }
    FindIs(e, "@", i);
    var d := e[i + 1..];
    assert d[..k] == e[i + 1..i + 1 + k];
    assert d[k + 1..] == e[i + 1 + k + 1..];
    assert d[k] == '.';
  }

  /** Every accepted address without a final newline has that shape. */
  lemma EmailParts(e: string)
    requires IsEmail(e) && (|e| == 0 || e[|e| - 1] != '\n')
    ensures exists i: nat, k: nat :: EmailShape(e, i, k)
  {
    var i := Find(e, "@").value;
    assert e[i..i + 1] == "@";
    var d := e[i + 1..];
    var k :| 1 <= k && k + 3 <= |d| && d[k] == '.' && AllDomain(d[..k]) && AllLetters(d[k + 1..]);
    assert d[..k] == e[i + 1..i + 1 + k];
    assert d[k + 1..] == e[i + 1 + k + 1..];
    assert EmailShape(e, i, k);
  }

  /** The example address of the bot's prompt has the accepted shape. */
  lemma EmailExample()
    ensures IsEmail("user" + "@" + "example" + "." + "com")
  {
    var e := "user" + "@" + "example" + "." + "com";
    assert e[..4] == "user" && e[5..12] == "example" && e[13..] == "com";
    assert EmailShape(e, 4, 7);
    EmailAccepts(e, 4, 7);
  }
}
