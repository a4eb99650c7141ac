/** IBAN check digits: the generator's and the validator's MOD 97-10 arithmetic
    (ISO 13616-1, ISO/IEC 7064), tied to the number an IBAN denotes. */
module Iban {
  import opened Text

  predicate IsAlnum(c: char) {
    IsDigit(c) || IsUpperLetter(c)
  }

  predicate AllAlnum(s: string) {
    forall i :: 0 <= i < |s| ==> IsAlnum(s[i])
  }

  predicate AllDigits(s: string) {
    forall i :: 0 <= i < |s| ==> IsDigit(s[i])
  }

  /** A digit stands for itself, a letter for 10..35. */
  function CharValue(c: char): (v: nat)
    requires IsAlnum(c)
    ensures IsDigit(c) ==> v < 10
    ensures IsUpperLetter(c) ==> 10 <= v < 36
  {
    if IsDigit(c) then c as int - '0' as int else c as int - 'A' as int + 10
  }

  /** Writing one more character after the number `n`: a digit takes one decimal place, a letter two. */
  function Extend(n: nat, c: char): nat
    requires IsAlnum(c)
  {
    (if IsDigit(c) then 10 * n else 100 * n) + CharValue(c)
  }

  /** The number an alphanumeric string denotes once letters are expanded. */
  function Number(s: string): nat
    requires AllAlnum(s)
  {
    if s == "" then 0
    else
      var n := |s| - 1;
      Extend(Number(s[..n]), s[n])
  }

  lemma NumberOfAppended(s: string, c: char)
    requires AllAlnum(s) && IsAlnum(c)
    ensures AllAlnum(s + [c]) && Number(s + [c]) == Extend(Number(s), c)
  {
    assert (s + [c])[..|s|] == s;
  }

  /** Every letter written out as its two digits: A as 10 up to Z as 35. */
  function Spelled(s: string): (digits: string)
    requires AllAlnum(s)
  {
    if s == "" then ""
    else
      var c := s[|s| - 1];
      Spelled(s[..|s| - 1])
      + if '0' <= c <= '9' then [c]
        else
          var v := c as int - 55;
          [(48 + v / 10) as char, (48 + v % 10) as char]
  }

  /** The value of a string of decimal digits. */
  function Decimal(digits: string): int {
    if digits == "" then 0
    else 10 * Decimal(digits[..|digits| - 1]) + (digits[|digits| - 1] as int - 48)
  }

  lemma DecimalOfAppended(digits: string, c: char)
    ensures Decimal(digits + [c]) == 10 * Decimal(digits) + (c as int - 48)
  {
    assert (digits + [c])[..|digits|] == digits;
  }

  /** The number an IBAN denotes is the decimal number it spells. */
  lemma {:induction false} NumberIsDecimal(s: string)
    requires AllAlnum(s)
    ensures Number(s) == Decimal(Spelled(s))
  {
    if s != "" {
      var n := |s| - 1;
      NumberIsDecimal(s[..n]);
      var before, c := Spelled(s[..n]), s[n];
      if IsDigit(c) {
        DecimalOfAppended(before, c);
      } else {
        var v := c as int - 55;
        var tens, ones := (48 + v / 10) as char, (48 + v % 10) as char;
        DecimalOfAppended(before, tens);
        DecimalOfAppended(before + [tens], ones);
        assert before + [tens, ones] == before + [tens] + [ones];
      }
    }
  }

  // ------------------------------------------------------------------ the two remainder loops

  /** One Horner step modulo 97 loses nothing. */
  lemma HornerStep(n: nat, c: char)
    requires IsAlnum(c)
    ensures Extend(n % 97, c) % 97 == Extend(n, c) % 97
  {
    AddMultiple(Extend(n % 97, c), (if IsDigit(c) then 10 else 100) * (n / 97));
  }

  lemma AddMultiple(a: int, k: int)
    ensures (a + 97 * k) % 97 == a % 97
  {}

  /** The generator's loop: every character that is not a digit counts as a letter. */
  method Mod97(digits: string) returns (remainder: nat)
    requires AllAlnum(digits)
    ensures remainder == Number(digits) % 97
  {
    remainder := 0;
    for i := 0 to |digits|
      invariant remainder == Number(digits[..i]) % 97
    {
      assert digits[..i + 1][..i] == digits[..i];
      HornerStep(Number(digits[..i]), digits[i]);
      if IsDigit(digits[i]) {
        remainder := (remainder * 10 + (digits[i] as int - '0' as int)) % 97;
      } else {
        remainder := (remainder * 100 + (digits[i] as int - 'A' as int + 10)) % 97;
      }
    }
    assert digits[..|digits|] == digits;
  }

  /** `normalized[4:] + normalized[:4]`, with the slicing of a short string. */
  function Rearranged(normalized: string): string {
    if |normalized| <= 4 then normalized else normalized[4..] + normalized[..4]
  }

  /** What the validator's loop computes: -1 for a foreign character, else the remainder. */
  function IbanRemainder(normalized: string): int {
    if AllAlnum(Rearranged(normalized)) then Number(Rearranged(normalized)) % 97 else -1
  }

  method IbanMod97(normalized: string) returns (r: int)
    ensures r == IbanRemainder(normalized)
  {
    var rearranged := Rearranged(normalized);
    var remainder := 0;
    for i := 0 to |rearranged|
      invariant AllAlnum(rearranged[..i])
      invariant remainder == Number(rearranged[..i]) % 97
    {
      assert rearranged[..i + 1][..i] == rearranged[..i];
      var c := rearranged[i];
      if IsDigit(c) {
        HornerStep(Number(rearranged[..i]), c);
        remainder := (remainder * 10 + (c as int - '0' as int)) % 97;
      } else if IsUpperLetter(c) {
        HornerStep(Number(rearranged[..i]), c);
        remainder := (remainder * 100 + (c as int - 'A' as int + 10)) % 97;
      } else {
        return -1;
      }
    }
    assert rearranged[..|rearranged|] == rearranged;
    r := remainder;
  }

  // ------------------------------------------------------------------ generation

  const ZEROED := "DE00"

  function DigitChar(d: nat): (c: char)
    requires d < 10
    ensures IsDigit(c) && CharValue(c) == d
  {
    ('0' as int + d) as char
  }

  /** `f"{check:02d}"`. */
  function TwoDigits(n: nat): (s: string)
    requires n < 100
    ensures |s| == 2 && AllDigits(s)
  {
    [DigitChar(n / 10), DigitChar(n % 10)]
  }

  function CheckValue(bban: string): (check: nat)
    requires AllDigits(bban)
    ensures 2 <= check <= 98
  {
    98 - Number(bban + ZEROED) % 97
  }

  function GermanIban(bban: string): (iban: string)
    requires AllDigits(bban)
    ensures |iban| == |bban| + 4 && AllAlnum(iban)
  {
    "DE" + TwoDigits(CheckValue(bban)) + bban
  }

  /** The generator, given the BBAN its random draws produced. */
  method DeIban(bban: string) returns (iban: string)
    requires |bban| == 18 && AllDigits(bban)
    ensures iban == GermanIban(bban)
    ensures |iban| == 22 && iban[..2] == "DE" && IsDigit(iban[2]) && IsDigit(iban[3]) && iban[4..] == bban
  {
    var remainder := Mod97(bban + ZEROED);
    var check := 98 - remainder;
    iban := "DE" + TwoDigits(check) + bban;
  }

  lemma NumberWithTwoDigits(head: string, n: nat)
    requires AllAlnum(head) && n < 100
    ensures AllAlnum(head + TwoDigits(n)) && Number(head + TwoDigits(n)) == 100 * Number(head) + n
  {
    var cc := TwoDigits(n);
    NumberOfAppended(head, cc[0]);
    NumberOfAppended(head + [cc[0]], cc[1]);
    assert head + cc == head + [cc[0]] + [cc[1]];
  }

  /** Generated check digits make the rearranged number congruent to one. */
  lemma GeneratedRemainderIsOne(bban: string)
    requires AllDigits(bban) && |bban| > 0
    ensures IbanRemainder(GermanIban(bban)) == 1
  {
    var check := CheckValue(bban);
    var cc := TwoDigits(check);
    var iban := GermanIban(bban);
    assert Rearranged(iban) == bban + "DE" + cc;
    var head := bban + "DE";
    NumberWithTwoDigits(head, check);
    NumberWithTwoDigits(head, 0);
    assert TwoDigits(0) == "00";
    assert bban + ZEROED == head + TwoDigits(0);
    var zeroed := Number(bban + ZEROED);
    assert Number(Rearranged(iban)) == zeroed + check;
    AddMultiple(1, zeroed / 97 + 1);
  }

  // ------------------------------------------------------------------ error detection

  /** 10 is invertible modulo 97 (10 * 68 = 680 = 7 * 97 + 1). */
  lemma CancelTen(x: int)
    requires (10 * x) % 97 == 0
    ensures x % 97 == 0
  {
    var q := (10 * x) / 97;
    assert 10 * x == 97 * q;
    assert x == 97 * (68 * q - 7 * x);
    AddMultiple(0, 68 * q - 7 * x);
  }

  lemma DifferenceOfCongruent(a: int, b: int)
    ensures a % 97 == b % 97 <==> (a - b) % 97 == 0
  {
    AddMultiple(a - b, b / 97);
  }

  /** A Horner step is injective modulo 97. */
  lemma StepInjective(a: nat, b: nat, c: char)
    requires IsAlnum(c)
    requires Extend(a, c) % 97 == Extend(b, c) % 97
    ensures a % 97 == b % 97
  {
    DifferenceOfCongruent(Extend(a, c), Extend(b, c));
    if !IsDigit(c) {
      CancelTen(10 * (a - b));
    }
    CancelTen(a - b);
    DifferenceOfCongruent(a, b);
  }

  /** A common tail never hides a difference of remainders. */
  lemma {:induction false} TailCancels(p: string, q: string, after: string)
    requires AllAlnum(p) && AllAlnum(q) && AllAlnum(after)
    requires Number(p + after) % 97 == Number(q + after) % 97
    ensures Number(p) % 97 == Number(q) % 97
  {
    if after == "" {
      assert p + after == p && q + after == q;
    } else {
      var n := |after| - 1;
      var init, c := after[..n], after[n];
      assert p + after == (p + init) + [c] && q + after == (q + init) + [c];
      NumberOfAppended(p + init, c);
      NumberOfAppended(q + init, c);
      StepInjective(Number(p + init), Number(q + init), c);
      TailCancels(p, q, init);
    }
  }

  /** Replacing one digit by another digit, or one letter by another letter, changes the remainder. */
  lemma SubstitutionDetected(before: string, c: char, d: char, after: string)
    requires AllAlnum(before) && AllAlnum(after) && IsAlnum(c) && IsAlnum(d)
    requires IsDigit(c) == IsDigit(d) && c != d
    ensures AllAlnum(before + [c] + after) && AllAlnum(before + [d] + after)
    ensures Number(before + [c] + after) % 97 != Number(before + [d] + after) % 97
  {
    if Number(before + [c] + after) % 97 == Number(before + [d] + after) % 97 {
      TailCancels(before + [c], before + [d], after);
      NumberOfAppended(before, c);
      NumberOfAppended(before, d);
      hide Number, Extend;
      LastCharacterCounts(Number(before), c, d);
      assert false;
    }
  }

  lemma LastCharacterCounts(n: nat, c: char, d: char)
    requires IsAlnum(c) && IsAlnum(d) && IsDigit(c) == IsDigit(d) && c != d
    ensures Extend(n, c) % 97 != Extend(n, d) % 97
  {
    assert CharValue(c) != CharValue(d);
    DifferenceOfCongruent(Extend(n, c), Extend(n, d));
  }

  lemma SwapFactor(x: int)
    requires -26 < x < 26 && x != 0
    ensures (9 * x) % 97 != 0 && (99 * x) % 97 != 0
  {
    AddMultiple(2 * x, x);
  }

  /** Swapping two adjacent unequal characters of the same kind changes the remainder. */
  lemma TranspositionDetected(before: string, c: char, d: char, after: string)
    requires AllAlnum(before) && AllAlnum(after) && IsAlnum(c) && IsAlnum(d)
    requires IsDigit(c) == IsDigit(d) && c != d
    ensures AllAlnum(before + [c, d] + after) && AllAlnum(before + [d, c] + after)
    ensures Number(before + [c, d] + after) % 97 != Number(before + [d, c] + after) % 97
  {
    SwapFactor(CharValue(c) - CharValue(d));
    if Number(before + [c, d] + after) % 97 == Number(before + [d, c] + after) % 97 {
      TailCancels(before + [c, d], before + [d, c], after);
      NumberOfPair(before, c, d);
      NumberOfPair(before, d, c);
      DifferenceOfCongruent(Number(before + [c, d]), Number(before + [d, c]));
      assert false;
    }
  }

  lemma NumberOfPair(s: string, c: char, d: char)
    requires AllAlnum(s) && IsAlnum(c) && IsAlnum(d)
    ensures Number(s + [c, d]) == Extend(Extend(Number(s), c), d)
  {
    NumberOfAppended(s, c);
    NumberOfAppended(s + [c], d);
    assert s + [c, d] == s + [c] + [d];
  }
}
