/** Field formatters and validators for Canadian postal codes, "+1 (NPA) NXX-XXXX"
    phone numbers and street numbers (src/utils/formatters.js). */
module Formatters {
  import opened Strings
  import Seqs

  // ---------------------------------------------------------------- postal code

  /** The alphanumeric characters of `s`, upper-cased. */
  function CleanPostal(s: string): string {
    Upper(Seqs.Filter(s, IsAlnum))
  }

  lemma CleanPostalChars(s: string)
    ensures var c := CleanPostal(s); forall i :: 0 <= i < |c| ==> IsUpper(c[i]) || IsDigit(c[i])
  {
    var f := Seqs.Filter(s, IsAlnum);
    assert forall i :: 0 <= i < |f| ==> IsAlnum(f[i]);
  }

  /** `formatPostalCode`: at most six upper-case alphanumerics, split "A1A 1A1" once
      six are present; anything after the sixth is dropped. */
  function FormatPostalCode(s: string): (r: string)
    ensures s == "" ==> r == ""
    ensures |r| <= 7
    ensures |r| == 7 <==> |Seqs.Filter(s, IsAlnum)| >= 6
    ensures |r| == 7 ==> r[3] == ' ' && r[..3] + r[4..] == CleanPostal(s)[..6]
    ensures |r| < 7 ==> r == CleanPostal(s)
    ensures forall i :: 0 <= i < |r| && !(|r| == 7 && i == 3) ==> IsUpper(r[i]) || IsDigit(r[i])
  {
    if s == "" then ""
    else
      var c := CleanPostal(s);
      CleanPostalChars(s);
      if |c| >= 6 then
        var r := c[..3] + " " + c[3..6];
        assert r[..3] + r[4..] == c[..6];
        r
      else c
  }

  /** Upper-casing a string that is already upper-case letters and digits changes nothing. */
  lemma UpperFixed(s: string)
    requires forall i :: 0 <= i < |s| ==> IsUpper(s[i]) || IsDigit(s[i])
    ensures Upper(s) == s
  {
  }

  /** Filtering "aaa bbb" keeps the two alphanumeric halves. */
  lemma FilterAroundSpace(a: string, b: string)
    requires forall i :: 0 <= i < |a| ==> IsUpper(a[i]) || IsDigit(a[i])
    requires forall i :: 0 <= i < |b| ==> IsUpper(b[i]) || IsDigit(b[i])
    ensures Seqs.Filter(a + [' '] + b, IsAlnum) == a + b
  {
    assert !IsAlnum(' ');
    Seqs.FilterDropsMiddle(a, ' ', b, IsAlnum);
  }

  /** Formatting a formatted postal code returns it unchanged. */
  lemma FormatPostalCodeIdempotent(s: string)
    ensures FormatPostalCode(FormatPostalCode(s)) == FormatPostalCode(s)
  {
    var r := FormatPostalCode(s);
    if |r| == 7 {
      SplitPostalFixed(r);
    } else if r != "" {
      ShortPostalFixed(r);
    }
  }

  /** "AAA BBB" of upper-case letters and digits formats to itself. */
  lemma SplitPostalFixed(r: string)
    requires |r| == 7 && r[3] == ' '
    requires forall i :: 0 <= i < 7 && i != 3 ==> IsUpper(r[i]) || IsDigit(r[i])
    ensures FormatPostalCode(r) == r
  {
    var a, b := r[..3], r[4..];
    assert r == a + [' '] + b;
    FilterAroundSpace(a, b);
    UpperFixed(a + b);
    assert CleanPostal(r) == a + b;
    assert (a + b)[..3] == a && (a + b)[3..6] == b;
  }

  /** Fewer than six upper-case letters and digits format to themselves. */
  lemma ShortPostalFixed(r: string)
    requires r != "" && |r| < 6
    requires forall i :: 0 <= i < |r| ==> IsUpper(r[i]) || IsDigit(r[i])
    ensures FormatPostalCode(r) == r
  {
    Seqs.FilterAll(r, IsAlnum);
    UpperFixed(r);
    assert CleanPostal(r) == r;
  }

  predicate LetterDigitLetter(u: string)
    requires |u| == 3
  {
    IsUpper(u[0]) && IsDigit(u[1]) && IsUpper(u[2])
  }

  predicate DigitLetterDigit(u: string)
    requires |u| == 3
  {
    IsDigit(u[0]) && IsUpper(u[1]) && IsDigit(u[2])
  }

  /** `/^[A-Z]\d[A-Z]\s?\d[A-Z]\d$/` on an already upper-cased string. */
  predicate PostalPattern(u: string) {
    || (|u| == 6 && LetterDigitLetter(u[..3]) && DigitLetterDigit(u[3..]))
    || (|u| == 7 && IsSpace(u[3]) && LetterDigitLetter(u[..3]) && DigitLetterDigit(u[4..]))
  }

  /** `validatePostalCode`: non-empty and matching the pattern once upper-cased. */
  predicate ValidatePostalCode(s: string) {
    s != "" && PostalPattern(Upper(s))
  }

  /** The letters may be typed in either case: the validator is the case-insensitive
      pattern letter-digit-letter, optional white space, digit-letter-digit. */
  lemma ValidatePostalCodeChars(s: string)
    ensures ValidatePostalCode(s) <==>
      var k := |s| - 6;
      (k == 0 || (k == 1 && IsSpace(s[3])))
      && IsLetter(s[0]) && IsDigit(s[1]) && IsLetter(s[2])
      && IsDigit(s[3 + k]) && IsLetter(s[4 + k]) && IsDigit(s[5 + k])
  {
  }

  /** Upper-casing maps letters to upper-case letters and leaves digits digits. */
  lemma UpperCharClass(c: char)
    ensures IsUpper(UpperChar(c)) <==> IsLetter(c)
    ensures IsDigit(UpperChar(c)) <==> IsDigit(c)
  {
  }

  /** On a formatted seven-character code the validator only checks which of the six
      alphanumerics are letters and which are digits. */
  lemma ValidateSevenChars(r: string)
    requires |r| == 7 && r[3] == ' '
    requires forall i :: 0 <= i < 7 && i != 3 ==> IsUpper(r[i]) || IsDigit(r[i])
    ensures ValidatePostalCode(r) <==>
      IsUpper(r[0]) && IsDigit(r[1]) && IsUpper(r[2]) && IsDigit(r[4]) && IsUpper(r[5]) && IsDigit(r[6])
  {
    var a, b := r[..3], r[4..];
    assert r == a + [' '] + b;
    UpperFixed(a);
    UpperFixed(b);
    assert Upper(r) == r;
  }

  /** A formatted postal code validates exactly when the first six alphanumerics of the
      input read letter-digit-letter-digit-letter-digit, in either case. */
  lemma FormatThenValidatePostalCode(s: string)
    ensures var f := Seqs.Filter(s, IsAlnum);
      ValidatePostalCode(FormatPostalCode(s)) <==>
      |f| >= 6 && IsLetter(f[0]) && IsDigit(f[1]) && IsLetter(f[2])
      && IsDigit(f[3]) && IsLetter(f[4]) && IsDigit(f[5])
  {
    var f := Seqs.Filter(s, IsAlnum);
    var r := FormatPostalCode(s);
    if |f| >= 6 {
      var c := CleanPostal(s);
      ValidateSevenChars(r);
      assert r[0] == c[0] && r[1] == c[1] && r[2] == c[2];
      assert r[4] == c[3] && r[5] == c[4] && r[6] == c[5];
      UpperCharClass(f[0]); UpperCharClass(f[1]); UpperCharClass(f[2]);
      UpperCharClass(f[3]); UpperCharClass(f[4]); UpperCharClass(f[5]);
    } else {
      assert |Upper(r)| == |r| < 6;
    }
  }

  // ---------------------------------------------------------------- phone number

  function Min(a: int, b: int): int { if a < b then a else b }

  /** The digits `formatPhoneNumber` works on: all digits of the input, with a leading
      country code `1` dropped when there are exactly eleven. */
  function NationalDigits(s: string): string {
    var c := Digits(s);
    if |c| == 11 && c[0] == '1' then c[1..] else c
  }

  /** `formatPhoneNumber` as written. */
  function FormatPhoneNumber(s: string): (r: string)
    ensures s == "" <==> r == ""
    ensures s != "" ==> |r| >= 4 && r[..4] == "+1 ("
  {
    if s == "" then ""
    else
      var c := NationalDigits(s);
      if |c| >= 10 then "+1 (" + c[..3] + ") " + c[3..6] + "-" + c[6..10]
      else if |c| >= 6 then "+1 (" + c[..3] + ") " + c[3..6]
      else if |c| >= 3 then "+1 (" + c[..3] + ")"
      else "+1 (" + c
  }

  /** The digits of `a + b` are the digits of `a` followed by those of `b`. */
  lemma DigitsAppend(a: string, b: string)
    ensures Digits(a + b) == Digits(a) + Digits(b)
  {
    Seqs.FilterAppend(a, b, IsDigit);
  }

  lemma DigitsOfDigits(a: string)
    requires AllDigits(a)
    ensures Digits(a) == a
  {
    Seqs.FilterAll(a, IsDigit);
  }

  lemma DigitsOfPunctuation(a: string)
    requires forall i :: 0 <= i < |a| ==> !IsDigit(a[i])
    ensures Digits(a) == ""
  {
    if a != [] {
      DigitsOfPunctuation(a[1..]);
    }
  }

  lemma NationalDigitsAreDigits(s: string)
    ensures AllDigits(NationalDigits(s))
  {
    var c := Digits(s);
    assert forall i :: 0 <= i < |c| ==> IsDigit(c[i]);
  }

  lemma DigitsOfCountryPrefix()
    ensures Digits("+1 (") == "1"
  {
    assert "+1 (" == "+" + "1" + " (";
    DigitsAppend("+", "1");
    DigitsAppend("+" + "1", " (");
    DigitsOfPunctuation("+");
    DigitsOfPunctuation(" (");
    DigitsOfDigits("1");
  }

  /** Digits of `x + a + y` when `a` is all digits and `y` holds none. */
  lemma DigitsStep(x: string, a: string, y: string)
    requires AllDigits(a)
    requires forall i :: 0 <= i < |y| ==> !IsDigit(y[i])
    ensures Digits(x + a + y) == Digits(x) + a
  {
    DigitsAppend(x, a);
    DigitsAppend(x + a, y);
    DigitsOfDigits(a);
    DigitsOfPunctuation(y);
  }

  /** How many national digits the formatter shows: ten, six or three once that many
      are present, all of them below three. */
  function ShownDigits(n: nat): nat {
    if n >= 10 then 10 else if n >= 6 then 6 else if n >= 3 then 3 else n
  }

  /** Whatever the input, the digits of a formatted (non-empty) phone number are the
      country code `1` followed by the first `ShownDigits` national digits. */
  lemma FormattedPhoneDigits(s: string)
    requires s != ""
    ensures var c := NationalDigits(s);
      Digits(FormatPhoneNumber(s)) == "1" + c[..ShownDigits(|c|)]
  {
    var c := NationalDigits(s);
    NationalDigitsAreDigits(s);
    if |c| >= 10 {
      FullNumberDigits(c);
    } else if |c| >= 6 {
      ExchangeDigits(c);
    } else if |c| >= 3 {
      OneGroupDigits(c[..3], ")");
    } else {
      OneGroupDigits(c, "");
      assert "+1 (" + c + "" == "+1 (" + c;
    }
  }

  /** Digits of "+1 (AAA) BBB-CCCC" shaped text. */
  lemma ThreeGroupDigits(x: string, y: string, z: string)
    requires AllDigits(x) && AllDigits(y) && AllDigits(z)
    ensures Digits("+1 (" + x + ") " + y + "-" + z) == "1" + x + y + z
  {
    var p := "+1 (";
    DigitsOfCountryPrefix();
    DigitsStep(p, x, ") ");
    DigitsStep(p + x + ") ", y, "-");
    DigitsStep(p + x + ") " + y + "-", z, "");
    assert p + x + ") " + y + "-" + z + "" == p + x + ") " + y + "-" + z;
  }

  /** Digits of "+1 (AAA) BBB" shaped text. */
  lemma TwoGroupDigits(x: string, y: string)
    requires AllDigits(x) && AllDigits(y)
    ensures Digits("+1 (" + x + ") " + y) == "1" + x + y
  {
    var p := "+1 (";
    DigitsOfCountryPrefix();
    DigitsStep(p, x, ") ");
    DigitsStep(p + x + ") ", y, "");
    assert p + x + ") " + y + "" == p + x + ") " + y;
  }

  /** Digits of "+1 (AAA" shaped text. */
  lemma OneGroupDigits(x: string, y: string)
    requires AllDigits(x) && forall i :: 0 <= i < |y| ==> !IsDigit(y[i])
    ensures Digits("+1 (" + x + y) == "1" + x
  {
    DigitsOfCountryPrefix();
    DigitsStep("+1 (", x, y);
  }

  lemma FullNumberDigits(c: string)
    requires AllDigits(c) && |c| >= 10
    ensures Digits("+1 (" + c[..3] + ") " + c[3..6] + "-" + c[6..10]) == "1" + c[..10]
  {
    ThreeGroupDigits(c[..3], c[3..6], c[6..10]);
    assert c[..3] + c[3..6] + c[6..10] == c[..10];
  }

  lemma ExchangeDigits(c: string)
    requires AllDigits(c) && |c| >= 6
    ensures Digits("+1 (" + c[..3] + ") " + c[3..6]) == "1" + c[..6]
  {
    TwoGroupDigits(c[..3], c[3..6]);
    assert c[..3] + c[3..6] == c[..6];
  }

  /** `validatePhoneNumber`: ten digits, or eleven starting with the country code. */
  predicate ValidatePhoneNumber(s: string) {
    s != "" && (var c := Digits(s); (|c| == 11 && c[0] == '1') || |c| == 10)
  }

  /** Round trip: a number with at least ten digits formats into a valid number. */
  lemma FormatThenValidatePhone(p: string)
    requires |Digits(p)| >= 10
    ensures ValidatePhoneNumber(FormatPhoneNumber(p))
  {
    assert p != "";
    FormattedPhoneDigits(p);
  }

  /** The formatter as written re-reads the "1" of its own "+1 (" prefix as a national
      digit while fewer than eleven digits are present, and its middle branches drop
      digits: typing "5" twice into the field shows "+1 (155)", and a third "5" turns
      it into "+1 (115)". */
  lemma TypedPhoneDigitsLost()
    ensures FormatPhoneNumber("5") == "+1 (5"
    ensures FormatPhoneNumber("+1 (5" + "5") == "+1 (155)"
    ensures FormatPhoneNumber("+1 (155)" + "5") == "+1 (115)"
    ensures FormatPhoneNumber(FormatPhoneNumber("5")) != FormatPhoneNumber("5")
  {
    FirstDigitShown();
    SecondDigitAbsorbsCountryCode();
    ThirdDigitDropped();
    PrefixReread();
  }

  lemma FirstDigitShown()
    ensures FormatPhoneNumber("5") == "+1 (5"
  {
    DigitsOfDigits("5");
    assert "+1 (" + "5" == "+1 (5";
  }

  lemma PrefixReread()
    ensures FormatPhoneNumber("+1 (5") == "+1 (15"
  {
    OneGroupDigits("5", "");
    assert "+1 (" + "5" + "" == "+1 (5";
    assert "+1 (" + "15" == "+1 (15";
  }

  lemma SecondDigitAbsorbsCountryCode()
    ensures FormatPhoneNumber("+1 (5" + "5") == "+1 (155)"
  {
    OneGroupDigits("55", "");
    assert "+1 (" + "55" + "" == "+1 (5" + "5";
    assert "155"[..3] == "155";
  }

  lemma ThirdDigitDropped()
    ensures FormatPhoneNumber("+1 (155)" + "5") == "+1 (115)"
  {
    OneGroupDigits("155", ")");
    DigitsAppend("+1 (" + "155" + ")", "5");
    DigitsOfDigits("5");
    assert "+1 (" + "155" + ")" + "5" == "+1 (155)" + "5";
    assert Digits("+1 (155)" + "5") == "11555";
    assert "11555"[..3] == "115";
  }

  /** The national digits as intended: every digit of the input, less one leading
      country code `1` (the one the formatter itself writes), at most ten of them. */
  function PhoneNationalDigits(s: string): (r: string)
    ensures AllDigits(r) && |r| <= 10
  {
    var c := Digits(s);
    assert AllDigits(c);
    var n := if |c| >= 1 && c[0] == '1' then c[1..] else c;
    n[..Min(|n|, 10)]
  }

  /** `formatPhoneNumber` as intended: "+1 (" then the national digits grouped 3-3-4,
      each group shown as soon as it has a digit and no digit dropped. */
  function FormatPhoneNumberFixed(s: string): (r: string)
    ensures s == "" <==> r == ""
    ensures s != "" ==> |r| >= 4 && r[..4] == "+1 ("
  {
    if s == "" then "" else GroupPhone(PhoneNationalDigits(s))
  }

  /** The national digits `c` after "+1 (", grouped 3-3-4. */
  function GroupPhone(c: string): (r: string)
    ensures |r| >= 4 && r[..4] == "+1 ("
  {
    if |c| > 6 then "+1 (" + c[..3] + ") " + c[3..6] + "-" + c[6..]
    else if |c| > 3 then "+1 (" + c[..3] + ") " + c[3..]
    else "+1 (" + c
  }

  /** Grouping adds the country code and punctuation only: its digits are the country
      code then the grouped digits. */
  lemma GroupPhoneDigits(c: string)
    requires AllDigits(c)
    ensures Digits(GroupPhone(c)) == "1" + c
  {
    if |c| > 6 {
      GroupsOfThreeDigits(c);
    } else if |c| > 3 {
      GroupsOfTwoDigits(c);
    } else {
      OneGroupDigits(c, "");
      assert "+1 (" + c + "" == "+1 (" + c;
    }
  }

  lemma GroupsOfThreeDigits(c: string)
    requires AllDigits(c) && |c| > 6
    ensures Digits("+1 (" + c[..3] + ") " + c[3..6] + "-" + c[6..]) == "1" + c
  {
    ThreeGroupDigits(c[..3], c[3..6], c[6..]);
    assert c[..3] + c[3..6] + c[6..] == c;
  }

  lemma GroupsOfTwoDigits(c: string)
    requires AllDigits(c) && |c| > 3
    ensures Digits("+1 (" + c[..3] + ") " + c[3..]) == "1" + c
  {
    TwoGroupDigits(c[..3], c[3..]);
    assert c[..3] + c[3..] == c;
  }

  /** The digits of a formatted number are the country code then the national digits. */
  lemma FixedPhoneDigits(s: string)
    requires s != ""
    ensures Digits(FormatPhoneNumberFixed(s)) == "1" + PhoneNationalDigits(s)
  {
    GroupPhoneDigits(PhoneNationalDigits(s));
  }

  /** Text whose digits are the country code then at most ten national digits reads
      back as those national digits. */
  lemma NationalAfterCountryCode(t: string, c: string)
    requires |c| <= 10 && Digits(t) == "1" + c
    ensures PhoneNationalDigits(t) == c
  {
    assert ("1" + c)[1..] == c;
    assert c[..Min(|c|, 10)] == c;
  }

  /** Reading back a formatted number recovers its national digits. */
  lemma FixedPhoneNationalDigits(s: string)
    requires s != ""
    ensures PhoneNationalDigits(FormatPhoneNumberFixed(s)) == PhoneNationalDigits(s)
  {
    FixedPhoneDigits(s);
    NationalAfterCountryCode(FormatPhoneNumberFixed(s), PhoneNationalDigits(s));
  }

  /** Formatting a formatted number changes nothing. */
  lemma FormatPhoneNumberFixedIdempotent(s: string)
    ensures FormatPhoneNumberFixed(FormatPhoneNumberFixed(s)) == FormatPhoneNumberFixed(s)
  {
    if s != "" {
      FixedPhoneNationalDigits(s);
    }
  }

  /** Typing a digit at the end of the field adds exactly that digit while the number
      is incomplete. */
  lemma TypedPhoneDigitKept(s: string, d: char)
    requires s != "" && IsDigit(d)
    requires |PhoneNationalDigits(s)| < 10
    ensures PhoneNationalDigits(FormatPhoneNumberFixed(s) + [d]) == PhoneNationalDigits(s) + [d]
  {
    var c := PhoneNationalDigits(s);
    var f := FormatPhoneNumberFixed(s);
    FixedPhoneDigits(s);
    DigitsAppend(f, [d]);
    DigitsOfDigits([d]);
    assert "1" + c + [d] == "1" + (c + [d]);
    NationalAfterCountryCode(f + [d], c + [d]);
  }

  /** A number with ten national digits formats into a valid number. */
  lemma FormatFixedThenValidatePhone(s: string)
    requires |PhoneNationalDigits(s)| == 10
    ensures ValidatePhoneNumber(FormatPhoneNumberFixed(s))
  {
    assert s != "";
    FixedPhoneDigits(s);
  }

  // ---------------------------------------------------------------- street number

  /** `formatStreetNumber`: the digits of the input. */
  function FormatStreetNumber(s: string): (r: string)
    ensures AllDigits(r) && |r| <= |s|
    ensures forall i :: 0 <= i < |s| && IsDigit(s[i]) ==> s[i] in r
  {
    if s == "" then "" else Digits(s)
  }

  /** Formatting works character by character: a digit is kept, anything else dropped,
      and the results of two pieces are concatenated in order. */
  lemma FormatStreetNumberPieces(a: string, b: string, c: char)
    ensures FormatStreetNumber(a + b) == FormatStreetNumber(a) + FormatStreetNumber(b)
    ensures FormatStreetNumber([c]) == if IsDigit(c) then [c] else ""
  {
    DigitsAppend(a, b);
    Seqs.FilterSingleton(c, IsDigit);
    if a == "" {
      assert a + b == b;
    }
    if b == "" {
      assert a + b == a;
    }
  }

  /** A valid street number is left as it is. */
  lemma FormatStreetNumberKeepsValid(s: string)
    requires ValidateStreetNumber(s)
    ensures FormatStreetNumber(s) == s
  {
    DigitsOfDigits(s);
  }

  lemma FormatStreetNumberIdempotent(s: string)
    ensures FormatStreetNumber(FormatStreetNumber(s)) == FormatStreetNumber(s)
  {
    DigitsOfDigits(FormatStreetNumber(s));
  }

  /** `validateStreetNumber`: non-empty and digits only. */
  predicate ValidateStreetNumber(s: string) {
    s != "" && AllDigits(s)
  }

  /** A formatted street number is valid exactly when the input held a digit. */
  lemma FormatThenValidateStreetNumber(s: string)
    ensures ValidateStreetNumber(FormatStreetNumber(s)) <==> exists i :: 0 <= i < |s| && IsDigit(s[i])
  {
    var r := FormatStreetNumber(s);
    if r != "" {
      assert r[0] in s;
    }
  }
}
