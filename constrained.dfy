/**
 * The checks of the constrained types: the bound-conflict rule of the
 * constrained number classes, the length bounds of a constrained list,
 * curtailing and the pattern check of a constrained string, the strict bool
 * check and the digit layout of a constrained decimal. The class attributes
 * each check reads (`min_items`, `curtail_length`, `regex`, `max_digits`, ...)
 * become parameters; `None` stays `None`.
 */
module ConstrainedTypes {

  import opened Wrappers
  import opened Values
  import opened Errors

  function Min(a: int, b: int): int { if a <= b then a else b }
  function Max(a: int, b: int): int { if a >= b then a else b }

  // ---------------------------------------------------------------------
  // ConstrainedNumberMeta

  /** The bounds a constrained number class declares. */
  datatype NumberBounds = NumberBounds(gt: Option<int>, ge: Option<int>, lt: Option<int>, le: Option<int>)

  const GtGeMessage: string := "bounds gt and ge cannot be specified at the same time"
  const LtLeMessage: string := "bounds lt and le cannot be specified at the same time"

  /**
   * `ConstrainedNumberMeta.__new__`: the class is created unless it declares
   * both lower bounds or both upper bounds, which raises `ConfigError`; a clash
   * of the lower bounds is reported first.
   */
  function CheckBounds(b: NumberBounds): (r: Result<NumberBounds, string>)
    ensures r.Success? <==> (b.gt.None? || b.ge.None?) && (b.lt.None? || b.le.None?)
    ensures r.Success? ==> r.value == b
    ensures r.Failure? && b.gt.Some? && b.ge.Some? ==> r.error == GtGeMessage
    ensures r.Failure? && (b.gt.None? || b.ge.None?) ==> r.error == LtLeMessage
  {
    if b.gt.Some? && b.ge.Some? then Failure(GtGeMessage)
    else if b.lt.Some? && b.le.Some? then Failure(LtLeMessage)
    else Success(b)
  }

  // ---------------------------------------------------------------------
  // ConstrainedList

  /**
   * `len(v)`: the length of a string, bytes, dict or non-generator collection;
   * `None` where `len` raises `TypeError`.
   */
  function Len(v: Value): (n: Option<nat>)
    ensures n.Some? <==> v.Str? || v.Bytes? || v.Dict? || (v.Coll? && v.kind != GeneratorKind)
    ensures v.Coll? && n.Some? ==> n.value == |v.items|
  {
    match v
    case Str(s) => Some(|s|)
    case Bytes(bs) => Some(|bs|)
    case Dict(entries) => Some(|entries|)
    case Coll(kind, items) => if kind == GeneratorKind then None else Some(|items|)
    case _ => None
  }

  /**
   * `ConstrainedList.list_length_validator`: the value passes unchanged when
   * its length lies within the bounds that are set; the minimum is checked
   * first. A value without a length fails in `len` with `TypeError`.
   */
  function ListLength(minItems: Option<int>, maxItems: Option<int>, v: Value): (r: Result<Value, Exc>)
    ensures r.Success? <==> Len(v).Some? && (minItems.None? || minItems.value <= Len(v).value)
                                          && (maxItems.None? || Len(v).value <= maxItems.value)
    ensures r.Success? ==> r.value == v
    ensures Len(v).None? ==> r == Failure(NoLenError)
    ensures Len(v).Some? && minItems.Some? && Len(v).value < minItems.value ==>
              r == Failure(ListMinLengthError(minItems.value))
    ensures r.Failure? && Len(v).Some? && (minItems.None? || minItems.value <= Len(v).value) ==>
              r.error == ListMaxLengthError(maxItems.value)
  {
    match Len(v)
    case None => Failure(NoLenError)
    case Some(n) =>
      if minItems.Some? && n < minItems.value then Failure(ListMinLengthError(minItems.value))
      else if maxItems.Some? && n > maxItems.value then Failure(ListMaxLengthError(maxItems.value))
      else Success(v)
  }

  // ---------------------------------------------------------------------
  // ConstrainedStr

  /**
   * A compiled regular expression: its source text and the strings it
   * matches in full. The matching engine itself is not part of this model.
   */
  datatype Pattern = Pattern(pattern: string, matchesWhole: string -> bool)

  /** `pattern.match(s)`: `re.match` anchors at the start only, so some prefix of `s` is matched in full. */
  predicate MatchesAtStart(p: Pattern, s: string) {
    exists k :: 0 <= k <= |s| && p.matchesWhole(s[..k])
  }

  /** `s[:n]` with Python's slice rules: a negative bound counts from the end. */
  function Slice(s: string, n: int): (r: string)
    ensures r <= s
    ensures n >= 0 ==> |r| == Min(n, |s|)
    ensures n < 0 ==> |r| == Max(0, |s| + n)
  {
    if n >= 0 then (if n <= |s| then s[..n] else s)
    else if |s| + n >= 0 then s[..|s| + n]
    else []
  }

  /**
   * The first step of `ConstrainedStr.validate`: a value longer than a truthy
   * `curtail_length` is cut to `value[:curtail_length]`. Zero is falsy, so it
   * never curtails; a negative length drops that many characters from the end.
   */
  function Curtail(s: string, curtail: Option<int>): (r: string)
    ensures r <= s
    ensures curtail.None? || curtail.value == 0 ==> r == s
    ensures curtail.Some? && curtail.value > 0 ==> |r| == Min(|s|, curtail.value)
    ensures curtail.Some? && curtail.value < 0 ==> |r| == Max(0, |s| + curtail.value)
  {
    if curtail.Some? && curtail.value != 0 && |s| > curtail.value then Slice(s, curtail.value) else s
  }

  /**
   * `ConstrainedStr.validate`: curtail, then match the curtailed value against
   * the pattern, if one is set; a mismatch raises `StrRegexError` with the
   * pattern's text.
   */
  function ValidateStr(curtail: Option<int>, regex: Option<Pattern>, s: string): (r: Result<string, Exc>)
    ensures r.Success? <==> regex.None? || MatchesAtStart(regex.value, Curtail(s, curtail))
    ensures r.Success? ==> r.value == Curtail(s, curtail)
    ensures r.Failure? ==> r.error == StrRegexError(regex.value.pattern)
  {
    var value := Curtail(s, curtail);
    if regex.Some? && !MatchesAtStart(regex.value, value) then Failure(StrRegexError(regex.value.pattern))
    else Success(value)
  }

  /**
   * The pattern check is a prefix match: once a string matches in full, every
   * extension of it passes as well.
   */
  lemma ExtensionsPass(p: Pattern, s: string, rest: string)
    requires p.matchesWhole(s)
    ensures ValidateStr(None, Some(p), s + rest) == Success(s + rest)
  {
    assert (s + rest)[..|s|] == s;
  }

  /** The pattern `a` accepts `abc`, a string it does not match in full. */
  lemma PrefixMatchAcceptsLonger()
    ensures ValidateStr(None, Some(Pattern("a", (x: string) => x == "a")), "abc") == Success("abc")
  {
    ExtensionsPass(Pattern("a", (x: string) => x == "a"), "a", "bc");
    assert "a" + "bc" == "abc";
  }

  /**
   * The pattern sees the curtailed value: with `curtail_length=2`, the pattern
   * `abcd` rejects `abcd` itself.
   */
  lemma PatternSeesCurtailedValue()
    ensures ValidateStr(Some(2), Some(Pattern("abcd", (x: string) => x == "abcd")), "abcd")
            == Failure(StrRegexError("abcd"))
  {
    var p := Pattern("abcd", (x: string) => x == "abcd");
    assert Curtail("abcd", Some(2)) == "ab";
    forall k | 0 <= k <= 2
      ensures !p.matchesWhole("ab"[..k])
    {
      assert |"ab"[..k]| == k;
    }
  }

  /** Validating a curtailed value again changes nothing, for a curtail length that is absent or not negative. */
  lemma CurtailIdempotent(s: string, curtail: Option<int>)
    requires curtail.None? || curtail.value >= 0
    ensures Curtail(Curtail(s, curtail), curtail) == Curtail(s, curtail)
  {
    if curtail.Some? && curtail.value > 0 {
      assert |Curtail(s, curtail)| <= curtail.value;
    }
  }

  // ---------------------------------------------------------------------
  // StrictBool

  /** `StrictBool.validate`: only an actual `bool` passes, unchanged; nothing is coerced. */
  function StrictBool(v: Value): (r: Result<bool, Exc>)
    ensures r.Success? <==> v.Bool?
    ensures r.Success? ==> r.value == v.b
    ensures r.Failure? ==> r.error == StrictBoolError
  {
    if v.Bool? then Success(v.b) else Failure(StrictBoolError)
  }

  // ---------------------------------------------------------------------
  // ConstrainedDecimal

  /**
   * `Decimal.as_tuple()`: a finite value's sign, coefficient digits and
   * exponent, or a special value, whose exponent is `'F'` (infinity), `'n'`
   * (quiet NaN) or `'N'` (signalling NaN).
   */
  datatype DecimalValue =
    | Finite(negative: bool, digits: seq<nat>, exponent: int)
    | Infinity(negative: bool)
    | QuietNaN
    | SignalingNaN

  /** The total digit count and the number of decimal places `ConstrainedDecimal.validate` derives. */
  datatype Layout = Layout(digits: nat, decimals: nat)

  /**
   * The digit layout of a coefficient of `n` digits with exponent `exponent`:
   * the digits after the point are `-exponent` when that is positive, those
   * before it are `n + exponent` when that is positive, and the digit count is
   * their sum (never less than `n`).
   */
  function DigitLayout(n: nat, exponent: int): (l: Layout)
    ensures l.decimals == Max(0, -exponent)
    ensures l.digits - l.decimals == Max(0, n + exponent)
    ensures l.decimals <= l.digits
    ensures n <= l.digits
  {
    if exponent >= 0 then Layout(n + exponent, 0)
    else if -exponent > n then Layout(-exponent, -exponent)
    else Layout(n, -exponent)
  }

  /** The digits before the decimal point of a finite value. */
  function WholeDigits(v: DecimalValue): nat
    requires v.Finite?
  {
    Max(0, |v.digits| + v.exponent)
  }

  /** The digits after the decimal point of a finite value. */
  function DecimalPlaces(v: DecimalValue): nat
    requires v.Finite?
  {
    Max(0, -v.exponent)
  }

  /** The limits `max_digits` and `decimal_places` a finite value must respect. */
  predicate WithinLimits(maxDigits: Option<int>, decimalPlaces: Option<int>, v: DecimalValue)
    requires v.Finite?
  {
    (maxDigits.None? || WholeDigits(v) + DecimalPlaces(v) <= maxDigits.value)
    && (decimalPlaces.None? || DecimalPlaces(v) <= decimalPlaces.value)
    && (maxDigits.None? || decimalPlaces.None? || WholeDigits(v) <= maxDigits.value - decimalPlaces.value)
  }

  /**
   * `ConstrainedDecimal.validate`: a special value is refused; then the digit
   * count, the decimal places and the whole digits are checked in that order,
   * and a value within every limit is returned unchanged.
   */
  function ValidateDecimal(maxDigits: Option<int>, decimalPlaces: Option<int>, v: DecimalValue): (r: Result<DecimalValue, Exc>)
    ensures !v.Finite? ==> r == Failure(DecimalIsNotFiniteError)
    ensures r.Success? <==> v.Finite? && WithinLimits(maxDigits, decimalPlaces, v)
    ensures r.Success? ==> r.value == v
    ensures v.Finite? && maxDigits.Some? && WholeDigits(v) + DecimalPlaces(v) > maxDigits.value ==>
              r == Failure(DecimalMaxDigitsError(maxDigits.value))
    ensures v.Finite? && (maxDigits.None? || WholeDigits(v) + DecimalPlaces(v) <= maxDigits.value)
              && decimalPlaces.Some? && DecimalPlaces(v) > decimalPlaces.value ==>
              r == Failure(DecimalMaxPlacesError(decimalPlaces.value))
    ensures r.Failure? && v.Finite? && (maxDigits.None? || WholeDigits(v) + DecimalPlaces(v) <= maxDigits.value)
              && (decimalPlaces.None? || DecimalPlaces(v) <= decimalPlaces.value) ==>
              r == Failure(DecimalWholeDigitsError(maxDigits.value - decimalPlaces.value))
  {
    if !v.Finite? then Failure(DecimalIsNotFiniteError)
    else
      var l := DigitLayout(|v.digits|, v.exponent);
      var wholeDigits := l.digits - l.decimals;
      if maxDigits.Some? && l.digits > maxDigits.value then Failure(DecimalMaxDigitsError(maxDigits.value))
      else if decimalPlaces.Some? && l.decimals > decimalPlaces.value then Failure(DecimalMaxPlacesError(decimalPlaces.value))
      else if maxDigits.Some? && decimalPlaces.Some? && wholeDigits > maxDigits.value - decimalPlaces.value then
        Failure(DecimalWholeDigitsError(maxDigits.value - decimalPlaces.value))
      else Success(v)
  }

  /**
   * The whole-digit check is not implied by the other two: `12345` has five
   * digits and no decimal places, within `max_digits=5, decimal_places=2`, yet
   * more than three digits before the point.
   */
  lemma WholeDigitCheckNeeded()
    ensures ValidateDecimal(Some(5), Some(2), Finite(false, [1, 2, 3, 4, 5], 0)) == Failure(DecimalWholeDigitsError(3))
  {
  }

  /** Leading zeros after the point count as digits: `0.001` (digits `1`, exponent -3) has three digits. */
  lemma FractionDigits()
    ensures ValidateDecimal(Some(2), None, Finite(false, [1], -3)) == Failure(DecimalMaxDigitsError(2))
    ensures ValidateDecimal(Some(3), Some(3), Finite(false, [1], -3)) == Success(Finite(false, [1], -3))
  {
  }
}
