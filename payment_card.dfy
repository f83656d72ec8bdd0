/**
 * `PaymentCardNumber`: the all-digits check, the Luhn check digit, the brand
 * read off the leading digits, the length each brand requires, the slots
 * `__init__` sets and the masked display.
 *
 * Two checks are modelled twice. `PaymentCardNumber.ValidateLuhnCheckDigit`
 * and `LengthForBrandAsWritten` follow the code as written; `LuhnValid` (the
 * Luhn check of ISO/IEC 7812-1, Annex B) and `LengthForBrand` are the
 * corrected checks `PaymentCardNumber.ValidateCorrected` uses;
 * `PaymentCardNumber.Validate` runs the checks as written.
 */
module PaymentCards {

  import opened Wrappers
  import opened Errors
  import opened ConstrainedTypes

  predicate IsDigit(c: char) { '0' <= c <= '9' }

  predicate AllDigits(s: string) { forall i :: 0 <= i < |s| ==> IsDigit(s[i]) }

  /** `str.isdigit` on ASCII text: at least one character, and every character a decimal digit. */
  predicate IsDigits(s: string) { |s| > 0 && AllDigits(s) }

  function DigitValue(c: char): (d: nat)
    requires IsDigit(c)
    ensures d < 10
  {
    c as int - '0' as int
  }

  /** `validate_digits`: the number passes unchanged when it is all digits, else `NotDigitError`. */
  function ValidateDigits(s: string): (r: Result<string, Exc>)
    ensures r.Success? <==> IsDigits(s)
    ensures r.Success? ==> r.value == s
    ensures r.Failure? ==> r.error == NotDigitError
  {
    if IsDigits(s) then Success(s) else Failure(NotDigitError)
  }

  // ---------------------------------------------------------------------
  // The Luhn check digit

  /**
   * Whether the digit at index `i` of an `n`-digit number is doubled: the
   * loop's test `i % 2 == parity`. These are the digits at an odd distance
   * from the check digit, the last one.
   */
  predicate Doubled(n: nat, i: nat) { i % 2 == n % 2 }

  /** What the loop adds for the digit at index `i`: a doubled digit is added whole. */
  function Weight(s: string, i: nat): nat
    requires AllDigits(s) && i < |s|
  {
    if Doubled(|s|, i) then 2 * DigitValue(s[i]) else DigitValue(s[i])
  }

  /** What Annex B adds for the digit at index `i`: a doubled digit contributes the sum of its two digits. */
  function StdWeight(s: string, i: nat): nat
    requires AllDigits(s) && i < |s|
  {
    var d := DigitValue(s[i]);
    if !Doubled(|s|, i) then d else if 2 * d > 9 then 2 * d - 9 else 2 * d
  }

  /** The loop's running sum over the first `k` digits. */
  function PartialSum(s: string, k: nat): nat
    requires AllDigits(s) && k <= |s|
  {
    if k == 0 then 0 else PartialSum(s, k - 1) + Weight(s, k - 1)
  }

  /** The Annex B weights of the first `k` digits, summed. */
  function StdPartialSum(s: string, k: nat): nat
    requires AllDigits(s) && k <= |s|
  {
    if k == 0 then 0 else StdPartialSum(s, k - 1) + StdWeight(s, k - 1)
  }

  /** The sum `validate_luhn_check_digit` tests: the check digit, then each other digit by the loop's weight. */
  function LuhnSumAsWritten(s: string): nat
    requires IsDigits(s)
  {
    DigitValue(s[|s| - 1]) + PartialSum(s, |s| - 1)
  }

  /**
   * The Luhn sum of ISO/IEC 7812-1, Annex B, taken from the right: the check
   * digit as it is, the digit before it doubled with the digits of the double
   * summed, and so on alternately. `double` says whether the last digit of `s`
   * is doubled.
   */
  function LuhnSum(s: string, double: bool): nat
    requires AllDigits(s)
    decreases |s|
  {
    if s == [] then 0
    else
      var d := DigitValue(s[|s| - 1]);
      (if !double then d else if 2 * d > 9 then 2 * d - 9 else 2 * d) + LuhnSum(s[..|s| - 1], !double)
  }

  /** The corrected check: the Annex B sum is a multiple of ten. */
  predicate LuhnValid(s: string)
    requires IsDigits(s)
  {
    LuhnSum(s, false) % 10 == 0
  }

  /** A doubled digit adds nine more in the loop than in Annex B exactly when it is 5 or more. */
  function Excess(s: string, i: nat): nat
    requires AllDigits(s) && i < |s|
  {
    if Doubled(|s|, i) && DigitValue(s[i]) >= 5 then 9 else 0
  }

  function ExcessSum(s: string, k: nat): nat
    requires AllDigits(s) && k <= |s|
  {
    if k == 0 then 0 else ExcessSum(s, k - 1) + Excess(s, k - 1)
  }

  /** The loop's sum and the Annex B sum differ by nine for every doubled digit of 5 or more. */
  lemma {:induction false} PartialSumExcess(s: string, k: nat)
    requires AllDigits(s) && k <= |s|
    ensures PartialSum(s, k) == StdPartialSum(s, k) + ExcessSum(s, k)
  {
    if k > 0 {
      PartialSumExcess(s, k - 1);
    }
  }

  /**
   * The Annex B sum taken from the right over the first `k` digits equals the
   * left-to-right sum of the Annex B weights, whose doubling is fixed by the
   * position in the whole number.
   */
  lemma {:induction false} LuhnSumPrefix(s: string, k: nat)
    requires AllDigits(s) && k <= |s|
    ensures AllDigits(s[..k])
    ensures LuhnSum(s[..k], (|s| - k) % 2 == 1) == StdPartialSum(s, k)
  {
    var p := s[..k];
    if k > 0 {
      LuhnSumPrefix(s, k - 1);
      assert p[..k - 1] == s[..k - 1];
      assert p[k - 1] == s[k - 1];
      assert ((|s| - k) % 2 == 1) == Doubled(|s|, k - 1);
      assert !((|s| - k) % 2 == 1) == ((|s| - (k - 1)) % 2 == 1);
    }
  }

  /** The check digit is never doubled, so the corrected sum is the Annex B weight sum over all digits. */
  lemma LuhnSumWhole(s: string)
    requires IsDigits(s)
    ensures LuhnSum(s, false) == StdPartialSum(s, |s|)
  {
    LuhnSumPrefix(s, |s|);
    assert s[..|s|] == s;
  }

  /**
   * The sum the code tests is the Annex B sum plus nine for every doubled
   * digit of 5 or more; the two checks agree whenever no doubled digit
   * exceeds 4.
   */
  lemma LuhnAsWrittenVsStandard(s: string)
    requires IsDigits(s)
    ensures LuhnSumAsWritten(s) == LuhnSum(s, false) + ExcessSum(s, |s| - 1)
    ensures ExcessSum(s, |s| - 1) == 0 ==> (LuhnSumAsWritten(s) % 10 == 0 <==> LuhnValid(s))
  {
    var n := |s|;
    LuhnSumWhole(s);
    PartialSumExcess(s, n - 1);
    assert !Doubled(n, n - 1);
    assert StdPartialSum(s, n) == StdPartialSum(s, n - 1) + DigitValue(s[n - 1]);
  }

  /** Changing the digit at `j` changes the Annex B weight sum by the change of that digit's weight only. */
  lemma {:induction false} StdPartialSumChange(s: string, t: string, j: nat, k: nat)
    requires AllDigits(s) && AllDigits(t) && |s| == |t| && j < |s| && k <= |s|
    requires forall i :: 0 <= i < |s| && i != j ==> s[i] == t[i]
    ensures k <= j ==> StdPartialSum(s, k) == StdPartialSum(t, k)
    ensures k > j ==> StdPartialSum(t, k) - StdPartialSum(s, k) == StdWeight(t, j) - StdWeight(s, j)
  {
    if k > 0 {
      StdPartialSumChange(s, t, j, k - 1);
      if k - 1 != j {
        assert s[k - 1] == t[k - 1];
      }
    }
  }

  /** Two different digits have Annex B weights that differ, and by less than ten. */
  lemma StdWeightDistinct(s: string, t: string, j: nat)
    requires AllDigits(s) && AllDigits(t) && |s| == |t| && j < |s| && s[j] != t[j]
    ensures StdWeight(s, j) != StdWeight(t, j)
    ensures StdWeight(s, j) < 10 && StdWeight(t, j) < 10
  {
    assert DigitValue(s[j]) != DigitValue(t[j]);
  }

  /**
   * The property the check digit exists for, which the corrected check has:
   * changing any single digit of a valid number makes it invalid.
   */
  lemma LuhnDetectsSingleDigitErrors(s: string, t: string, j: nat)
    requires IsDigits(s) && IsDigits(t) && |s| == |t| && j < |s| && s[j] != t[j]
    requires forall i :: 0 <= i < |s| && i != j ==> s[i] == t[i]
    ensures !(LuhnValid(s) && LuhnValid(t))
  {
    LuhnSumWhole(s);
    LuhnSumWhole(t);
    StdPartialSumChange(s, t, j, |s|);
    StdWeightDistinct(s, t, j);
    var a: int, b: int := StdPartialSum(s, |s|), StdPartialSum(t, |s|);
    assert b - a == StdWeight(t, j) - StdWeight(s, j);
    assert -10 < b - a < 10 && b - a != 0;
  }

  /** The sum the code tests for the Visa test number `4111111111111111`. */
  lemma VisaTestNumberAsWritten()
    ensures IsDigits("4111111111111111") && LuhnSumAsWritten("4111111111111111") == 30
  {
    var s := "4111111111111111";
    assert AllDigits(s);
    assert PartialSum(s, 1) == 8;
    assert PartialSum(s, 2) == 9;
    assert PartialSum(s, 3) == 11;
    assert PartialSum(s, 4) == 12;
    assert PartialSum(s, 5) == 14;
    assert PartialSum(s, 6) == 15;
    assert PartialSum(s, 7) == 17;
    assert PartialSum(s, 8) == 18;
    assert PartialSum(s, 9) == 20;
    assert PartialSum(s, 10) == 21;
    assert PartialSum(s, 11) == 23;
    assert PartialSum(s, 12) == 24;
    assert PartialSum(s, 13) == 26;
    assert PartialSum(s, 14) == 27;
    assert PartialSum(s, 15) == 29;
  }

  /** The Annex B sum of the Visa test number `4111111111111111`. */
  lemma VisaTestNumberStandard()
    ensures IsDigits("4111111111111111") && LuhnSum("4111111111111111", false) == 30
  {
    var s := "4111111111111111";
    assert AllDigits(s);
    assert StdPartialSum(s, 1) == 8;
    assert StdPartialSum(s, 2) == 9;
    assert StdPartialSum(s, 3) == 11;
    assert StdPartialSum(s, 4) == 12;
    assert StdPartialSum(s, 5) == 14;
    assert StdPartialSum(s, 6) == 15;
    assert StdPartialSum(s, 7) == 17;
    assert StdPartialSum(s, 8) == 18;
    assert StdPartialSum(s, 9) == 20;
    assert StdPartialSum(s, 10) == 21;
    assert StdPartialSum(s, 11) == 23;
    assert StdPartialSum(s, 12) == 24;
    assert StdPartialSum(s, 13) == 26;
    assert StdPartialSum(s, 14) == 27;
    assert StdPartialSum(s, 15) == 29;
    assert StdPartialSum(s, 16) == 30;
    LuhnSumWhole(s);
  }

  /** The sum the code tests for `9111111111111111`. */
  lemma AlteredVisaTestNumberAsWritten()
    ensures IsDigits("9111111111111111") && LuhnSumAsWritten("9111111111111111") == 40
  {
    var s := "9111111111111111";
    assert AllDigits(s);
    assert PartialSum(s, 1) == 18;
    assert PartialSum(s, 2) == 19;
    assert PartialSum(s, 3) == 21;
    assert PartialSum(s, 4) == 22;
    assert PartialSum(s, 5) == 24;
    assert PartialSum(s, 6) == 25;
    assert PartialSum(s, 7) == 27;
    assert PartialSum(s, 8) == 28;
    assert PartialSum(s, 9) == 30;
    assert PartialSum(s, 10) == 31;
    assert PartialSum(s, 11) == 33;
    assert PartialSum(s, 12) == 34;
    assert PartialSum(s, 13) == 36;
    assert PartialSum(s, 14) == 37;
    assert PartialSum(s, 15) == 39;
  }

  /** The Annex B sum of `9111111111111111`. */
  lemma AlteredVisaTestNumberStandard()
    ensures IsDigits("9111111111111111") && LuhnSum("9111111111111111", false) == 31
  {
    var s := "9111111111111111";
    assert AllDigits(s);
    assert StdPartialSum(s, 1) == 9;
    assert StdPartialSum(s, 2) == 10;
    assert StdPartialSum(s, 3) == 12;
    assert StdPartialSum(s, 4) == 13;
    assert StdPartialSum(s, 5) == 15;
    assert StdPartialSum(s, 6) == 16;
    assert StdPartialSum(s, 7) == 18;
    assert StdPartialSum(s, 8) == 19;
    assert StdPartialSum(s, 9) == 21;
    assert StdPartialSum(s, 10) == 22;
    assert StdPartialSum(s, 11) == 24;
    assert StdPartialSum(s, 12) == 25;
    assert StdPartialSum(s, 13) == 27;
    assert StdPartialSum(s, 14) == 28;
    assert StdPartialSum(s, 15) == 30;
    assert StdPartialSum(s, 16) == 31;
    LuhnSumWhole(s);
  }

  /** The sum the code tests for the Mastercard test number `5555555555554444`. */
  lemma MastercardTestNumberAsWritten()
    ensures IsDigits("5555555555554444") && LuhnSumAsWritten("5555555555554444") == 114
  {
    var s := "5555555555554444";
    assert AllDigits(s);
    assert PartialSum(s, 1) == 10;
    assert PartialSum(s, 2) == 15;
    assert PartialSum(s, 3) == 25;
    assert PartialSum(s, 4) == 30;
    assert PartialSum(s, 5) == 40;
    assert PartialSum(s, 6) == 45;
    assert PartialSum(s, 7) == 55;
    assert PartialSum(s, 8) == 60;
    assert PartialSum(s, 9) == 70;
    assert PartialSum(s, 10) == 75;
    assert PartialSum(s, 11) == 85;
    assert PartialSum(s, 12) == 90;
    assert PartialSum(s, 13) == 98;
    assert PartialSum(s, 14) == 102;
    assert PartialSum(s, 15) == 110;
  }

  /** The Annex B sum of the Mastercard test number `5555555555554444`. */
  lemma MastercardTestNumberStandard()
    ensures IsDigits("5555555555554444") && LuhnSum("5555555555554444", false) == 60
  {
    var s := "5555555555554444";
    assert AllDigits(s);
    assert StdPartialSum(s, 1) == 1;
    assert StdPartialSum(s, 2) == 6;
    assert StdPartialSum(s, 3) == 7;
    assert StdPartialSum(s, 4) == 12;
    assert StdPartialSum(s, 5) == 13;
    assert StdPartialSum(s, 6) == 18;
    assert StdPartialSum(s, 7) == 19;
    assert StdPartialSum(s, 8) == 24;
    assert StdPartialSum(s, 9) == 25;
    assert StdPartialSum(s, 10) == 30;
    assert StdPartialSum(s, 11) == 31;
    assert StdPartialSum(s, 12) == 36;
    assert StdPartialSum(s, 13) == 44;
    assert StdPartialSum(s, 14) == 48;
    assert StdPartialSum(s, 15) == 56;
    assert StdPartialSum(s, 16) == 60;
    LuhnSumWhole(s);
  }

  /** The sum the code tests for the 13-digit `5100000000003`. */
  lemma ShortMastercardAsWritten()
    ensures IsDigits("5100000000003") && LuhnSumAsWritten("5100000000003") == 10
  {
    var s := "5100000000003";
    assert AllDigits(s);
    assert PartialSum(s, 1) == 5;
    assert PartialSum(s, 2) == 7;
    assert PartialSum(s, 3) == 7;
    assert PartialSum(s, 4) == 7;
    assert PartialSum(s, 5) == 7;
    assert PartialSum(s, 6) == 7;
    assert PartialSum(s, 7) == 7;
    assert PartialSum(s, 8) == 7;
    assert PartialSum(s, 9) == 7;
    assert PartialSum(s, 10) == 7;
    assert PartialSum(s, 11) == 7;
    assert PartialSum(s, 12) == 7;
  }

  /** The Annex B sum of the 13-digit `5100000000003`. */
  lemma ShortMastercardStandard()
    ensures IsDigits("5100000000003") && LuhnSum("5100000000003", false) == 10
  {
    var s := "5100000000003";
    assert AllDigits(s);
    assert StdPartialSum(s, 1) == 5;
    assert StdPartialSum(s, 2) == 7;
    assert StdPartialSum(s, 3) == 7;
    assert StdPartialSum(s, 4) == 7;
    assert StdPartialSum(s, 5) == 7;
    assert StdPartialSum(s, 6) == 7;
    assert StdPartialSum(s, 7) == 7;
    assert StdPartialSum(s, 8) == 7;
    assert StdPartialSum(s, 9) == 7;
    assert StdPartialSum(s, 10) == 7;
    assert StdPartialSum(s, 11) == 7;
    assert StdPartialSum(s, 12) == 7;
    assert StdPartialSum(s, 13) == 10;
    LuhnSumWhole(s);
  }

  /**
   * The check as written misses a single-digit error: `4111111111111111` and
   * `9111111111111111` differ in their first digit only and both pass it,
   * while the corrected check rejects the second.
   */
  lemma LuhnAsWrittenMissesDigitError()
    ensures forall i :: 1 <= i < 16 ==> "4111111111111111"[i] == "9111111111111111"[i]
    ensures IsDigits("4111111111111111") && LuhnSumAsWritten("4111111111111111") % 10 == 0
    ensures IsDigits("9111111111111111") && LuhnSumAsWritten("9111111111111111") % 10 == 0
    ensures LuhnValid("4111111111111111") && !LuhnValid("9111111111111111")
  {
    VisaTestNumberAsWritten();
    VisaTestNumberStandard();
    AlteredVisaTestNumberAsWritten();
    AlteredVisaTestNumberStandard();
  }

  /** The Mastercard test number `5555555555554444` fails the check as written and passes the corrected one. */
  lemma LuhnAsWrittenRejectsTestCard()
    ensures IsDigits("5555555555554444")
    ensures LuhnSumAsWritten("5555555555554444") % 10 != 0
    ensures LuhnValid("5555555555554444")
  {
    MastercardTestNumberAsWritten();
    MastercardTestNumberStandard();
  }

  // ---------------------------------------------------------------------
  // Brands

  /** `int(card_number[:2])`: the number the first two digits (or the only one) spell. */
  function LeadingNumber(s: string): nat
    requires IsDigits(s)
  {
    if |s| >= 2 then 10 * DigitValue(s[0]) + DigitValue(s[1]) else DigitValue(s[0])
  }

  /**
   * `_get_brand`: Visa for a leading 4, Mastercard for a leading 51 to 55,
   * American Express for a leading 34 or 37, any other brand otherwise.
   */
  function GetBrand(s: string): (b: PaymentCardBrand)
    requires IsDigits(s)
    ensures b == Visa <==> s[0] == '4'
    ensures b == Mastercard <==> |s| >= 2 && s[0] == '5' && '1' <= s[1] <= '5'
    ensures b == Amex <==> |s| >= 2 && s[0] == '3' && (s[1] == '4' || s[1] == '7')
  {
    if s[0] == '4' then Visa
    else if 51 <= LeadingNumber(s) <= 55 then Mastercard
    else if |s| >= 2 && (assert s[..2] == [s[0], s[1]]; s[..2] in {"34", "37"}) then Amex
    else OtherBrand
  }

  /**
   * The length `validate_length_for_brand` demands as written, where
   * `brand is (visa or mastercard)` is `brand is visa`: 16 digits for Visa,
   * 15 for American Express, none for Mastercard or any other brand.
   */
  function RequiredLengthAsWritten(brand: PaymentCardBrand): Option<nat> {
    match brand
    case Visa => Some(16)
    case Amex => Some(15)
    case _ => None
  }

  /** `validate_length_for_brand` as written. */
  function LengthForBrandAsWritten(number: string, brand: PaymentCardBrand): (r: Result<string, Exc>)
    ensures r.Success? <==> (brand == Visa ==> |number| == 16) && (brand == Amex ==> |number| == 15)
    ensures r.Success? ==> r.value == number
    ensures r.Failure? ==> r.error == InvalidLengthForBrand(brand, Some(if brand == Visa then 16 else 15))
    ensures r.Failure? <==> RequiredLengthAsWritten(brand).Some? && |number| != RequiredLengthAsWritten(brand).value
    ensures r.Failure? ==> r.error == InvalidLengthForBrand(brand, RequiredLengthAsWritten(brand))
  {
    if brand == Visa then
      (if |number| == 16 then Success(number) else Failure(InvalidLengthForBrand(brand, Some(16))))
    else if brand == Amex then
      (if |number| == 15 then Success(number) else Failure(InvalidLengthForBrand(brand, Some(15))))
    else Success(number)
  }

  /** The length a brand requires: 16 digits for Visa and Mastercard, 15 for American Express, none for others. */
  function RequiredLength(brand: PaymentCardBrand): Option<nat> {
    match brand
    case Visa => Some(16)
    case Mastercard => Some(16)
    case Amex => Some(15)
    case OtherBrand => None
  }

  /** `validate_length_for_brand` as intended: Visa and Mastercard are both held to 16 digits. */
  function LengthForBrand(number: string, brand: PaymentCardBrand): (r: Result<string, Exc>)
    ensures r.Success? <==> RequiredLength(brand).None? || |number| == RequiredLength(brand).value
    ensures r.Success? ==> r.value == number
    ensures r.Failure? ==> r.error == InvalidLengthForBrand(brand, RequiredLength(brand))
  {
    if brand == Visa || brand == Mastercard then
      (if |number| == 16 then Success(number) else Failure(InvalidLengthForBrand(brand, Some(16))))
    else if brand == Amex then
      (if |number| == 15 then Success(number) else Failure(InvalidLengthForBrand(brand, Some(15))))
    else Success(number)
  }

  /**
   * The 13-digit number `5100000000003` has a Mastercard prefix and a valid
   * check digit under either Luhn sum; the length check as written lets it
   * through, the corrected one refuses it.
   */
  lemma MastercardLengthUnchecked()
    ensures IsDigits("5100000000003") && GetBrand("5100000000003") == Mastercard
    ensures LuhnSumAsWritten("5100000000003") % 10 == 0 && LuhnValid("5100000000003")
    ensures LengthForBrandAsWritten("5100000000003", Mastercard).Success?
    ensures LengthForBrand("5100000000003", Mastercard) == Failure(InvalidLengthForBrand(Mastercard, Some(16)))
  {
    ShortMastercardAsWritten();
    ShortMastercardStandard();
  }

  /** Apart from Mastercard, the two length checks agree. */
  lemma LengthChecksAgree(number: string, brand: PaymentCardBrand)
    requires brand != Mastercard
    ensures LengthForBrandAsWritten(number, brand) == LengthForBrand(number, brand)
  {
  }

  // ---------------------------------------------------------------------
  // The card number object

  /** `"*" * n`: `n` asterisks, none for a negative `n`. */
  function Stars(n: int): (r: string)
    ensures |r| == Max(0, n)
    ensures forall i :: 0 <= i < |r| ==> r[i] == '*'
  {
    if n <= 0 then [] else Stars(n - 1) + ['*']
  }

  class PaymentCardNumber {
    /** The card number itself: `PaymentCardNumber` is a `str`. */
    const number: string
    var bin: string
    var last4: string
    var brand: PaymentCardBrand

    /** The slots hold what `__init__` derives from the number. */
    ghost predicate Valid()
      reads this
    {
      IsDigits(number)
      && bin == number[..Min(6, |number|)]
      && last4 == number[|number| - Min(4, |number|)..]
      && brand == GetBrand(number)
    }

    /** `__init__`: `bin` is the first six digits, `last4` the last four, `brand` read off the prefix. */
    constructor (cardNumber: string)
      requires IsDigits(cardNumber)
      ensures number == cardNumber && Valid()
    {
      number := cardNumber;
      bin := Slice(cardNumber, 6);
      last4 := if |cardNumber| >= 4 then cardNumber[|cardNumber| - 4..] else cardNumber;
      brand := GetBrand(cardNumber);
    }

    /**
     * `masked`: a number of ten digits or more keeps its first six and last
     * four digits, every digit between them shown as `*`; a shorter one shows
     * its first six digits followed by its last four.
     */
    function Masked(): (m: string)
      reads this
      requires Valid()
      ensures |number| >= 10 ==> |m| == |number|
      ensures |number| >= 10 ==> m[..6] == number[..6] && m[|m| - 4..] == number[|number| - 4..]
      ensures |number| >= 10 ==> forall i :: 6 <= i < |m| - 4 ==> m[i] == '*'
      ensures |number| < 10 ==> m == number[..Min(6, |number|)] + number[|number| - Min(4, |number|)..]
    {
      bin + Stars(|number| - 10) + last4
    }

    /** `validate_luhn_check_digit`, as written: doubled digits are added whole. */
    static method ValidateLuhnCheckDigit(cardNumber: string) returns (r: Result<string, Exc>)
      requires IsDigits(cardNumber)
      ensures r.Success? <==> LuhnSumAsWritten(cardNumber) % 10 == 0
      ensures r.Success? ==> r.value == cardNumber
      ensures r.Failure? ==> r.error == LuhnValidationError
    {
      var length := |cardNumber|;
      var sum := DigitValue(cardNumber[length - 1]);
      var parity := length % 2;
      var i := 0;
      while i < length - 1
        invariant 0 <= i <= length - 1
        invariant sum == DigitValue(cardNumber[length - 1]) + PartialSum(cardNumber, i)
      {
        var digit := DigitValue(cardNumber[i]);
        if i % 2 == parity {
          digit := digit * 2;
        }
        sum := sum + digit;
        i := i + 1;
      }
      if sum % 10 != 0 {
        return Failure(LuhnValidationError);
      }
      return Success(cardNumber);
    }

    /**
     * The part of the chain `__get_validators__` yields after the string,
     * whitespace and length validators, as pydantic runs it:
     * `validate_digits`, the Luhn check as written, the class itself, then the
     * length for the brand as written, each stopping the chain on failure.
     */
    static method Validate(s: string) returns (r: Result<PaymentCardNumber, Exc>)
      ensures r.Success? <==>
                IsDigits(s) && LuhnSumAsWritten(s) % 10 == 0 && LengthForBrandAsWritten(s, GetBrand(s)).Success?
      ensures r.Success? ==> fresh(r.value) && r.value.number == s && r.value.Valid()
      ensures r.Failure? && !IsDigits(s) ==> r.error == NotDigitError
      ensures r.Failure? && IsDigits(s) && LuhnSumAsWritten(s) % 10 != 0 ==> r.error == LuhnValidationError
      ensures r.Failure? && IsDigits(s) && LuhnSumAsWritten(s) % 10 == 0 ==>
                r.error == InvalidLengthForBrand(GetBrand(s), RequiredLengthAsWritten(GetBrand(s)))
    {
      var digits := ValidateDigits(s);
      if digits.Failure? {
        return Failure(digits.error);
      }
      var luhn := ValidateLuhnCheckDigit(s);
      if luhn.Failure? {
        return Failure(luhn.error);
      }
      var card := new PaymentCardNumber(s);
      var length := LengthForBrandAsWritten(card.number, card.brand);
      if length.Failure? {
        return Failure(length.error);
      }
      return Success(card);
    }

    /**
     * The same chain with the corrected checks: the Luhn check of ISO/IEC
     * 7812-1 Annex B, and Visa and Mastercard both held to 16 digits.
     */
    static method ValidateCorrected(s: string) returns (r: Result<PaymentCardNumber, Exc>)
      ensures r.Success? <==> IsDigits(s) && LuhnValid(s) && LengthForBrand(s, GetBrand(s)).Success?
      ensures r.Success? ==> fresh(r.value) && r.value.number == s && r.value.Valid()
      ensures r.Failure? && !IsDigits(s) ==> r.error == NotDigitError
      ensures r.Failure? && IsDigits(s) && !LuhnValid(s) ==> r.error == LuhnValidationError
      ensures r.Failure? && IsDigits(s) && LuhnValid(s) ==>
                r.error == InvalidLengthForBrand(GetBrand(s), RequiredLength(GetBrand(s)))
    {
      var digits := ValidateDigits(s);
      if digits.Failure? {
        return Failure(digits.error);
      }
      if !LuhnValid(s) {
        return Failure(LuhnValidationError);
      }
      var card := new PaymentCardNumber(s);
      var length := LengthForBrand(card.number, card.brand);
      if length.Failure? {
        return Failure(length.error);
      }
      return Success(card);
    }
  }
}
