/** The IBAN check of misc.go: a raw length gate, normalisation, a country
    letter check, the ISO 13616 rearrangement and the ISO/IEC 7064 MOD 97-10
    checksum. Go's strings are byte strings; the model is restricted to
    7-bit characters, where one character is one byte and upper-casing is
    the ASCII one. */
module Iban {

  predicate IsAscii(s: string) {
    forall i :: 0 <= i < |s| ==> s[i] as int < 128
  }

  predicate IsUpper(c: char) { 'A' <= c <= 'Z' }
  predicate IsLower(c: char) { 'a' <= c <= 'z' }
  predicate IsDigit(c: char) { '0' <= c <= '9' }

  /** unicode.IsLetter on a 7-bit character. */
  predicate IsLetter(c: char) { IsUpper(c) || IsLower(c) }

  predicate AllDigits(s: string) {
    forall i :: 0 <= i < |s| ==> IsDigit(s[i])
  }

  /** Only capital letters and decimal digits: the alphabet of a normalised IBAN. */
  predicate UpperAlnum(s: string) {
    forall i :: 0 <= i < |s| ==> IsUpper(s[i]) || IsDigit(s[i])
  }

  // ---------------------------------------------------------------- normalisation

  /** strings.ToUpper on one 7-bit character. */
  function UpperChar(c: char): char {
    if IsLower(c) then (c as int - 32) as char else c
  }

  /** strings.ReplaceAll(s, " ", ""): the characters of s other than spaces, in order. */
  function StripSpaces(s: string): string {
    if s == [] then []
    else if s[0] == ' ' then StripSpaces(s[1..])
    else [s[0]] + StripSpaces(s[1..])
  }

  /** strings.ToUpper on a 7-bit string. */
  function ToUpper(s: string): string {
    seq(|s|, i requires 0 <= i < |s| => UpperChar(s[i]))
  }

  /** Step 2 of validateIBAN: remove every space, then upper-case. */
  function Normalize(raw: string): string {
    ToUpper(StripSpaces(raw))
  }

  /** isAlpha: the regular expression ^[A-Z]+$. */
  predicate IsAlpha(s: string) {
    |s| > 0 && forall i :: 0 <= i < |s| ==> IsUpper(s[i])
  }

  /** isAlpha as validateIBAN applies it to the first two characters: it
      passes exactly when both are capital letters, so a digit or a
      lower-case letter there fails; the empty string never passes. */
  lemma CountryLetters(s: string)
    requires |s| >= 2
    ensures IsAlpha(s[..2]) <==> IsUpper(s[0]) && IsUpper(s[1])
    ensures IsAlpha(s[..2]) ==> !IsDigit(s[0]) && !IsDigit(s[1]) && !IsLower(s[0]) && !IsLower(s[1])
    ensures !IsAlpha([])
  {
    assert s[..2][0] == s[0] && s[..2][1] == s[1];
  }

  predicate LengthOk(raw: string) { 15 <= |raw| <= 34 }

  /** validateIBAN slices iban[:2] and, once the country letters pass,
      iban[4:]; Go panics when either slice is out of range. */
  predicate SlicesDefined(s: string) {
    |s| >= 2 && (IsAlpha(s[..2]) ==> |s| >= 4)
  }

  /** The inputs on which the model of validateIBAN is defined: 7-bit, and
      not one of the inputs that make the Go code panic. */
  predicate IbanDefined(raw: string) {
    IsAscii(raw) && (LengthOk(raw) ==> SlicesDefined(Normalize(raw)))
  }

  // ---------------------------------------------------------------- rearrangement

  /** iban[4:] + iban[:4]: country code and check digits move to the end. */
  function Rotate4(s: string): (r: string)
    requires |s| >= 4
    ensures |r| == |s|
    ensures forall i :: 0 <= i < |s| - 4 ==> r[i] == s[i + 4]
    ensures forall i :: |s| - 4 <= i < |s| ==> r[i] == s[i - (|s| - 4)]
    ensures multiset(r) == multiset(s)
  {
    assert s == s[..4] + s[4..];
    s[4..] + s[..4]
  }

  // ---------------------------------------------------------------- letter expansion

  function DigitChar(d: nat): (c: char)
    requires d < 10
    ensures IsDigit(c) && c as int - '0' as int == d
  {
    ('0' as int + d) as char
  }

  /** The decimal value of a string of digits, most significant digit first. */
  function NumValue(s: string): int {
    if s == [] then 0 else NumValue(s[..|s| - 1]) * 10 + (s[|s| - 1] as int - '0' as int)
  }

  /** fmt.Sprintf("%d", n) for a natural number n. */
  function DecimalText(n: nat): (r: string)
    ensures |r| >= 1 && AllDigits(r)
    ensures n < 10 <==> |r| == 1
    ensures 10 <= n < 100 ==> |r| == 2
    ensures NumValue(r) == n
  {
    if n < 10 then [DigitChar(n)]
    else
      var p := DecimalText(n / 10);
      assert (p + [DigitChar(n % 10)])[..|p|] == p;
      p + [DigitChar(n % 10)]
  }

  /** The text one character of the rotated IBAN contributes: a letter c
      becomes the decimal text of c - 'A' + 10, anything else is copied. */
  function ExpandChar(c: char): string {
    if IsLetter(c) then DecimalText(c as int - 'A' as int + 10) else [c]
  }

  /** The string ibanWithDigits that the expansion loop builds from s. */
  function Expand(s: string): string {
    if s == [] then [] else Expand(s[..|s| - 1]) + ExpandChar(s[|s| - 1])
  }

  function CountLetters(s: string): nat {
    if s == [] then 0 else CountLetters(s[..|s| - 1]) + (if IsLetter(s[|s| - 1]) then 1 else 0)
  }

  // ---------------------------------------------------------------- checksum

  /** int(iban[i] - '0'): the subtraction is on bytes and wraps modulo 256. */
  function DigitByte(c: char): int {
    (c as int - '0' as int) % 256
  }

  /** The value of mod97's accumulator after reading all of s. */
  function Mod97Spec(s: string): (r: int)
    ensures 0 <= r < 97
  {
    if s == [] then 0 else (Mod97Spec(s[..|s| - 1]) * 10 + DigitByte(s[|s| - 1])) % 97
  }

  /** mod97: one decimal digit at a time, reducing modulo 97 after each. */
  method Mod97(iban: string) returns (result: int)
    ensures result == Mod97Spec(iban)
    ensures 0 <= result < 97
  {
    result := 0;
    for i := 0 to |iban|
      invariant result == Mod97Spec(iban[..i])
    {
      assert iban[..i + 1][..i] == iban[..i];
      result := (result * 10 + DigitByte(iban[i])) % 97;
    }
    assert iban[..|iban|] == iban;
  }

  // ---------------------------------------------------------------- the check

  /** The verdict of validateIBAN. */
  function IbanValid(raw: string): (ok: bool)
    requires IbanDefined(raw)
    ensures ok ==> LengthOk(raw)
    ensures ok ==> IsAlpha(Normalize(raw)[..2])
  {
    LengthOk(raw) &&
    var s := Normalize(raw);
    IsAlpha(s[..2]) && Mod97Spec(Expand(Rotate4(s))) == 1
  }

  /** validateIBAN, with the expansion loop that grows ibanWithDigits. */
  method ValidateIban(raw: string) returns (ok: bool)
    requires IbanDefined(raw)
    ensures ok == IbanValid(raw)
  {
    if |raw| < 15 || |raw| > 34 {
      return false;
    }
    var iban := Normalize(raw);
    if !IsAlpha(iban[..2]) {
      return false;
    }
    iban := iban[4..] + iban[..4];
    var ibanWithDigits := "";
    for i := 0 to |iban|
      invariant ibanWithDigits == Expand(iban[..i])
    {
      assert iban[..i + 1][..i] == iban[..i];
      ibanWithDigits := ibanWithDigits + ExpandChar(iban[i]);
    }
    assert iban[..|iban|] == iban;
    var r := Mod97(ibanWithDigits);
    return r == 1;
  }

  // ---------------------------------------------------------------- properties

  lemma {:induction false} StripSpacesOfSpaceless(s: string)
    requires forall i :: 0 <= i < |s| ==> s[i] != ' '
    ensures StripSpaces(s) == s
  {
    if s != [] {
      StripSpacesOfSpaceless(s[1..]);
    }
  }

  /** Stripping leaves no space and adds no character. */
  lemma {:induction false} StripSpacesRemovesSpaces(s: string)
    ensures |StripSpaces(s)| <= |s|
    ensures forall i :: 0 <= i < |StripSpaces(s)| ==> StripSpaces(s)[i] != ' ' && StripSpaces(s)[i] in s
  {
    if s != [] {
      StripSpacesRemovesSpaces(s[1..]);
      var t := StripSpaces(s[1..]);
      assert forall c :: c in t ==> c in s;
    }
  }

  /** A normalised string has no spaces and no lower-case letters, is no
      longer than the input, and stays 7-bit. */
  lemma NormalizeShape(raw: string)
    ensures |Normalize(raw)| <= |raw|
    ensures forall i :: 0 <= i < |Normalize(raw)| ==> Normalize(raw)[i] != ' ' && !IsLower(Normalize(raw)[i])
    ensures IsAscii(raw) ==> IsAscii(Normalize(raw))
  {
    StripSpacesRemovesSpaces(raw);
  }

  lemma {:induction false} StripSpacesConcat(a: string, b: string)
    ensures StripSpaces(a + b) == StripSpaces(a) + StripSpaces(b)
  {
    if a == [] {
      assert a + b == b;
    } else {
      assert (a + b)[0] == a[0] && (a + b)[1..] == a[1..] + b;
      StripSpacesConcat(a[1..], b);
    }
  }

  lemma ToUpperConcat(a: string, b: string)
    ensures ToUpper(a + b) == ToUpper(a) + ToUpper(b)
  {
  }

  /** Normalising twice is normalising once. */
  lemma NormalizeIdempotent(raw: string)
    ensures Normalize(Normalize(raw)) == Normalize(raw)
  {
    var s := Normalize(raw);
    NormalizeShape(raw);
    StripSpacesOfSpaceless(s);
    assert ToUpper(s) == s;
  }

  /** A space anywhere in the input is dropped by normalisation. */
  lemma NormalizeIgnoresSpace(a: string, b: string)
    ensures Normalize(a + " " + b) == Normalize(a + b)
  {
    assert StripSpaces(a + " " + b) == StripSpaces(a + b) by {
      var x := a + " ";
      assert a + " " + b == x + b;
      assert StripSpaces(" ") == [] by {
        assert " "[1..] == [];
      }
      StripSpacesConcat(x, b);
      StripSpacesConcat(a, " ");
      StripSpacesConcat(a, b);
    }
  }

  /** Two inputs that agree up to the case of their letters normalise alike. */
  lemma {:induction false} NormalizeIgnoresCase(a: string, b: string)
    requires |a| == |b|
    requires forall i :: 0 <= i < |a| ==> UpperChar(a[i]) == UpperChar(b[i])
    ensures Normalize(a) == Normalize(b)
  {
    if a != [] {
      NormalizeIgnoresCase(a[1..], b[1..]);
      assert UpperChar(a[0]) == UpperChar(b[0]);
      assert a[0] == ' ' <==> b[0] == ' ';
      if a[0] != ' ' {
        ToUpperConcat([a[0]], StripSpaces(a[1..]));
        ToUpperConcat([b[0]], StripSpaces(b[1..]));
      }
    }
  }

  /** A raw input whose length passes gets the same verdict as its compact
      upper-case form, when that form passes the length gate too. */
  lemma SameVerdictAsCompactForm(raw: string)
    requires IbanDefined(raw) && LengthOk(raw) && LengthOk(Normalize(raw))
    ensures IbanDefined(Normalize(raw))
    ensures IbanValid(Normalize(raw)) == IbanValid(raw)
  {
    NormalizeShape(raw);
    NormalizeIdempotent(raw);
  }

  /** A capital letter expands to the two digits of its value 10 .. 35. */
  lemma ExpandLetter(c: char)
    requires IsUpper(c)
    ensures |ExpandChar(c)| == 2 && AllDigits(ExpandChar(c))
    ensures NumValue(ExpandChar(c)) == c as int - 'A' as int + 10
  {
  }

  /** For an input made only of A-Z and 0-9 the expansion is all digits and
      is longer than the input by one character per letter. */
  lemma {:induction false} ExpandAlnum(s: string)
    requires UpperAlnum(s)
    ensures AllDigits(Expand(s))
    ensures |Expand(s)| == |s| + CountLetters(s)
  {
    if s != [] {
      var p := s[..|s| - 1];
      ExpandAlnum(p);
      if IsLetter(s[|s| - 1]) {
        ExpandLetter(s[|s| - 1]);
      }
    }
  }

  lemma {:induction false} ExpandConcat(a: string, b: string)
    ensures Expand(a + b) == Expand(a) + Expand(b)
  {
    if b == [] {
      assert a + b == a;
    } else {
      var init, c := b[..|b| - 1], b[|b| - 1];
      assert (a + b)[..|a + b| - 1] == a + init;
      assert (a + b)[|a + b| - 1] == c;
      assert Expand(a + b) == Expand(a + init) + ExpandChar(c);
      ExpandConcat(a, init);
      assert Expand(b) == Expand(init) + ExpandChar(c);
      assert Expand(a + b) == Expand(a) + (Expand(init) + ExpandChar(c));
    }
  }

  lemma {:induction false} ExpandDigits(s: string)
    requires AllDigits(s)
    ensures Expand(s) == s
  {
    if s != [] {
      ExpandDigits(s[..|s| - 1]);
    }
  }

  lemma ModStep(a: int, d: int)
    ensures ((a % 97) * 10 + d) % 97 == (a * 10 + d) % 97
  {
    var q := a / 97;
    assert a * 10 + d == 97 * (10 * q) + ((a % 97) * 10 + d);
  }

  /** On decimal digits mod97 computes the remainder of the number they
      denote. */
  lemma {:induction false} Mod97OfDigits(s: string)
    requires AllDigits(s)
    ensures Mod97Spec(s) == NumValue(s) % 97
  {
    if s != [] {
      var p := s[..|s| - 1];
      var d := s[|s| - 1] as int - '0' as int;
      Mod97OfDigits(p);
      assert DigitByte(s[|s| - 1]) == d;
      var a := NumValue(p);
      assert Mod97Spec(s) == ((a % 97) * 10 + d) % 97;
      assert NumValue(s) == a * 10 + d;
      ModStep(a, d);
    }
  }

  /** Rotation keeps the alphabet of a normalised IBAN. */
  lemma RotateUpperAlnum(s: string)
    requires |s| >= 4 && UpperAlnum(s)
    ensures UpperAlnum(Rotate4(s))
  {
    var r := Rotate4(s);
    forall i | 0 <= i < |r|
      ensures IsUpper(r[i]) || IsDigit(r[i])
    {
      if i < |s| - 4 {
        assert r[i] == s[i + 4];
      } else {
        assert r[i] == s[i - (|s| - 4)];
      }
    }
  }

  /** On input whose normalised form holds only A-Z and 0-9, validateIBAN
      accepts exactly when the length gate and the country letters pass and
      the number denoted by the rearranged, expanded IBAN leaves remainder 1
      modulo 97: the MOD 97-10 check of ISO/IEC 7064. */
  lemma IbanValidIsMod97Check(raw: string)
    requires IbanDefined(raw) && LengthOk(raw) && UpperAlnum(Normalize(raw))
    ensures IbanValid(raw) <==>
              var s := Normalize(raw);
              IsAlpha(s[..2]) && NumValue(Expand(Rotate4(s))) % 97 == 1
  {
    var s := Normalize(raw);
    if IsAlpha(s[..2]) {
      RotateUpperAlnum(s);
      ExpandAlnum(Rotate4(s));
      Mod97OfDigits(Expand(Rotate4(s)));
    }
  }

  // ---------------------------------------------------------------- the reference value

  function Pow10(k: nat): nat {
    if k == 0 then 1 else 10 * Pow10(k - 1)
  }

  lemma {:induction false} NumValueConcat(a: string, b: string)
    ensures NumValue(a + b) == NumValue(a) * Pow10(|b|) + NumValue(b)
  {
    if b == [] {
      assert a + b == a;
    } else {
      var b' := b[..|b| - 1];
      assert (a + b)[..|a + b| - 1] == a + b';
      NumValueConcat(a, b');
      assert NumValue(a + b) == NumValue(a + b') * 10 + (b[|b| - 1] as int - '0' as int);
    }
  }

  lemma NumValueOfFour(s: string)
    requires |s| == 4
    ensures NumValue(s) == 1000 * (s[0] as int - '0' as int) + 100 * (s[1] as int - '0' as int)
                         + 10 * (s[2] as int - '0' as int) + (s[3] as int - '0' as int)
  {
    var s1, s2, s3 := s[..1], s[..2], s[..3];
    assert s1[..0] == [] && s2[..1] == s1 && s3[..2] == s2 && s[..3] == s3;
    assert NumValue(s1) == s[0] as int - '0' as int;
    assert NumValue(s2) == 10 * (s[0] as int - '0' as int) + (s[1] as int - '0' as int);
  }

  lemma ExpandOne(c: char)
    ensures Expand([c]) == ExpandChar(c)
  {
    assert [c][..0] == [];
  }

  lemma NormalizeOfUpperAlnum(s: string)
    requires UpperAlnum(s)
    ensures Normalize(s) == s
  {
    StripSpacesOfSpaceless(s);
    assert ToUpper(s) == s;
  }

  lemma NumValueOfTwo(s: string)
    requires |s| == 2
    ensures NumValue(s) == 10 * (s[0] as int - '0' as int) + (s[1] as int - '0' as int)
  {
    assert s[..1][..0] == [];
    assert NumValue(s[..1]) == s[0] as int - '0' as int;
  }

  lemma ExpandFour(a: char, b: char, c: char, d: char)
    ensures Expand([a, b, c, d]) == ExpandChar(a) + ExpandChar(b) + ExpandChar(c) + ExpandChar(d)
  {
    ExpandOne(a); ExpandOne(b); ExpandOne(c); ExpandOne(d);
    assert [a, b, c, d] == [a] + [b] + [c] + [d];
    ExpandConcat([a], [b]);
    ExpandConcat([a] + [b], [c]);
    ExpandConcat([a] + [b] + [c], [d]);
  }

  lemma RotateConcat(c: string, d: string)
    requires |c| == 4
    ensures Rotate4(c + d) == d + c
  {
    assert (c + d)[4..] == d && (c + d)[..4] == c;
  }

  /** The conditions under which validateIBAN accepts an input that is
      already compact and upper-case. */
  lemma ValidWhenCompact(raw: string)
    requires IsAscii(raw) && LengthOk(raw) && Normalize(raw) == raw
    requires IsAlpha(raw[..2]) && Mod97Spec(Expand(Rotate4(raw))) == 1
    ensures IbanDefined(raw) && IbanValid(raw)
  {
  }

  // The reference IBAN DE89 3704 0044 0532 0130 00, written as its print
  // groups: country code with check digits, then the basic account number.

  lemma ReferenceCountryDigits()
    ensures Expand("DE89") == "1314" + "89"
  {
    ExpandFour('D', 'E', '8', '9');
    assert ExpandChar('D') == "13";
    assert ExpandChar('E') == "14";
  }

  /** The number the rearranged reference IBAN expands to. */
  lemma ReferenceHigh(h: string)
    requires h == "3704" + "0044" + "0532"
    ensures |h| == 12 && NumValue(h) == 370400440532
  {
    var q1, q2, q3 := "3704", "0044", "0532";
    NumValueOfFour(q1); NumValueOfFour(q2); NumValueOfFour(q3);
    assert Pow10(4) == 10000;
    NumValueConcat(q1, q2);
    NumValueConcat(q1 + q2, q3);
  }

  lemma ReferenceLow(l: string)
    requires l == "0130" + "00" + ("1314" + "89")
    ensures |l| == 12 && NumValue(l) == 13000131489
  {
    var q4, q5, q6 := "0130", "00", "1314" + "89";
    NumValueOfFour(q4); NumValueOfTwo(q5);
    NumValueOfFour("1314"); NumValueOfTwo("89");
    assert Pow10(2) == 100 && Pow10(4) == 10000;
    NumValueConcat("1314", "89");
    NumValueConcat(q4, q5);
    NumValueConcat(q4 + q5, q6);
  }

  lemma ReferenceNumber(bban: string)
    requires bban == "3704" + "0044" + "0532" + "0130" + "00"
    ensures NumValue(bban + ("1314" + "89")) == 370400440532013000131489
  {
    var h := "3704" + "0044" + "0532";
    var l := "0130" + "00" + ("1314" + "89");
    assert bban + ("1314" + "89") == h + l;
    ReferenceHigh(h);
    ReferenceLow(l);
    assert Pow10(12) == 1000000000000;
    NumValueConcat(h, l);
  }

  lemma AllDigitsConcat(a: string, b: string)
    requires AllDigits(a) && AllDigits(b)
    ensures AllDigits(a + b)
  {
  }

  lemma ReferenceRemainder()
    ensures 370400440532013000131489 % 97 == 1
  {
  }

  lemma ReferenceBbanDigits(bban: string)
    requires bban == "3704" + "0044" + "0532" + "0130" + "00"
    ensures AllDigits(bban) && AllDigits(bban + ("1314" + "89"))
  {
    AllDigitsConcat(bban, "1314" + "89");
  }

  lemma ReferenceRearranged(bban: string)
    requires AllDigits(bban)
    ensures Expand(Rotate4("DE89" + bban)) == bban + ("1314" + "89")
  {
    RotateConcat("DE89", bban);
    ExpandDigits(bban);
    ExpandConcat(bban, "DE89");
    ReferenceCountryDigits();
  }

  lemma ChecksumOne(digits: string)
    requires AllDigits(digits) && NumValue(digits) == 370400440532013000131489
    ensures Mod97Spec(digits) == 1
  {
    Mod97OfDigits(digits);
    ReferenceRemainder();
  }

  lemma ReferenceChecksum(bban: string)
    requires bban == "3704" + "0044" + "0532" + "0130" + "00"
    ensures Mod97Spec(Expand(Rotate4("DE89" + bban))) == 1
  {
    ReferenceBbanDigits(bban);
    ReferenceRearranged(bban);
    ReferenceNumber(bban);
    ChecksumOne(bban + ("1314" + "89"));
  }

  lemma ReferenceShape(raw: string, bban: string)
    requires raw == "DE89" + "3704" + "0044" + "0532" + "0130" + "00"
    requires bban == "3704" + "0044" + "0532" + "0130" + "00"
    ensures raw == "DE89" + bban
    ensures UpperAlnum(raw) && IsAscii(raw) && LengthOk(raw) && IsAlpha(raw[..2])
  {
    assert raw[..2] == "DE";
  }

  /** The example in the comment above validateIBAN passes. */
  lemma ReferenceIbanValid()
    ensures IbanDefined("DE89" + "3704" + "0044" + "0532" + "0130" + "00")
    ensures IbanValid("DE89" + "3704" + "0044" + "0532" + "0130" + "00")
  {
    var raw := "DE89" + "3704" + "0044" + "0532" + "0130" + "00";
    var bban := "3704" + "0044" + "0532" + "0130" + "00";
    ReferenceShape(raw, bban);
    NormalizeOfUpperAlnum(raw);
    ReferenceChecksum(bban);
    ValidWhenCompact(raw);
  }
}
