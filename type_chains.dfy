/**
 * The validator chains the constrained types yield from `__get_validators__`,
 * in their order, and what a field of such a type does with a value once the
 * chain's own checks are given their behaviour from `ConstrainedTypes` and
 * `PaymentCards`. The library validators the chains start with
 * (`str_validator`, `constr_strip_whitespace`, `constr_length_validator`, ...)
 * stay abstract: a lemma takes what they make of the input as given.
 */
module TypeChains {

  import opened Wrappers
  import opened Values
  import opened Errors
  import opened TypeDescriptors
  import opened Analysis
  import opened Validation
  import opened ConstrainedTypes
  import opened PaymentCards
  import ValidationProperties
  import AnalysisProperties

  // ------------------------------------------------------------ the chains

  const StripWhitespace: Validator := Fn("constr_strip_whitespace")
  const LengthValidator: Validator := Fn("constr_length_validator")
  const StrValidator: Validator := Fn("str_validator")

  const ListLengthValidator: Validator := Fn("ConstrainedList.list_length_validator")
  const ConstrainedStrValidate: Validator := Fn("ConstrainedStr.validate")
  const StrictBoolValidate: Validator := Fn("StrictBool.validate")
  const ConstrainedDecimalValidate: Validator := Fn("ConstrainedDecimal.validate")
  const ValidateDigitsValidator: Validator := Fn("PaymentCardNumber.validate_digits")
  const LuhnValidator: Validator := Fn("PaymentCardNumber.validate_luhn_check_digit")
  const CardClass: Validator := Fn("PaymentCardNumber")
  const LengthForBrandValidator: Validator := Fn("PaymentCardNumber.validate_length_for_brand")

  const ConstrainedBytesChain: seq<Validator> := [Fn("bytes_validator"), StripWhitespace, LengthValidator]
  const ConstrainedListChain: seq<Validator> := [ListLengthValidator]
  const StrictBoolChain: seq<Validator> := [StrictBoolValidate]
  const ConstrainedDecimalChain: seq<Validator> :=
    [Fn("decimal_validator"), Fn("number_size_validator"), Fn("number_multiple_validator"), ConstrainedDecimalValidate]
  const SecretStrChain: seq<Validator> := [StrValidator, Fn("SecretStr.validate")]
  const SecretBytesChain: seq<Validator> := [Fn("bytes_validator"), Fn("SecretBytes.validate")]

  /** The string validators, then stripping, the length bounds and `ConstrainedStr.validate`. */
  function ConstrainedStrChain(strict: bool): seq<Validator> {
    [if strict then Fn("strict_str_validator") else StrValidator, StripWhitespace, LengthValidator, ConstrainedStrValidate]
  }

  function ConstrainedIntChain(strict: bool): seq<Validator> {
    [Fn(if strict then "strict_int_validator" else "int_validator"), Fn("number_size_validator"), Fn("number_multiple_validator")]
  }

  /** The string validators, then the digits, the check digit, the class itself and the length for the brand. */
  const PaymentCardChain: seq<Validator> :=
    [StrValidator, StripWhitespace, LengthValidator, ValidateDigitsValidator, LuhnValidator, CardClass, LengthForBrandValidator]

  /** A class whose `__get_validators__` yields `chain`. */
  function ChainType(name: string, chain: seq<Validator>): Type {
    Class(name, Some(chain), false, false)
  }

  // ------------------------------------------------------------ validators given their behaviour

  /** A check's outcome as a validator step: its value passes on, its exception is caught. */
  function AsStep(r: Result<Value, Exc>): (s: Step)
    ensures r.Success? ==> s == Pass(r.value)
    ensures r.Failure? ==> s == Reject(r.error)
  {
    if r.Success? then Pass(r.value) else Reject(r.error)
  }

  /** `run` gives `StrictBool.validate` the behaviour of `ConstrainedTypes.StrictBool`. */
  ghost predicate RunsStrictBool(run: Runner) {
    forall v :: run(StrictBoolValidate, v) == (if v.Bool? then Pass(v) else Reject(StrictBoolError))
  }

  /** `run` gives `ConstrainedStr.validate` on a string the behaviour of `ConstrainedTypes.ValidateStr`. */
  ghost predicate RunsConstrainedStr(run: Runner, curtail: Option<int>, regex: Option<Pattern>) {
    forall s :: run(ConstrainedStrValidate, Str(s)) ==
      (if ValidateStr(curtail, regex, s).Success? then Pass(Str(ValidateStr(curtail, regex, s).value))
       else Reject(ValidateStr(curtail, regex, s).error))
  }

  /** `run` gives `list_length_validator` the behaviour of `ConstrainedTypes.ListLength`. */
  ghost predicate RunsListLength(run: Runner, minItems: Option<int>, maxItems: Option<int>) {
    forall v :: run(ListLengthValidator, v) == AsStep(ListLength(minItems, maxItems, v))
  }

  /**
   * `run` gives the card number's own validators their behaviour on a string,
   * as pydantic defines them: the digits check, then, on digits, the Luhn
   * check as written (doubled digits added whole), the class, which keeps the
   * text, and the length for the brand as written (Mastercard unchecked).
   */
  ghost predicate RunsCardChecks(run: Runner) {
    (forall s :: run(ValidateDigitsValidator, Str(s)) ==
       (if IsDigits(s) then Pass(Str(s)) else Reject(NotDigitError)))
    && (forall s :: IsDigits(s) ==>
          run(LuhnValidator, Str(s))
          == (if LuhnSumAsWritten(s) % 10 == 0 then Pass(Str(s)) else Reject(LuhnValidationError)))
    && (forall s :: IsDigits(s) ==> run(CardClass, Str(s)) == Pass(Str(s)))
    && (forall s :: IsDigits(s) ==>
          run(LengthForBrandValidator, Str(s))
          == (if LengthForBrandAsWritten(s, GetBrand(s)).Success? then Pass(Str(s))
              else Reject(LengthForBrandAsWritten(s, GetBrand(s)).error)))
  }

  // ------------------------------------------------------------ fields of these types

  /**
   * A field of a class type that yields its own chain, with no class
   * validators and not `const`, validates a value with exactly that chain:
   * nothing runs before or after it.
   */
  lemma OwnChainField(cfg: Config, name: string, t: Type, default: Value, required: bool)
    requires t.Class? && t.own.Some?
    ensures var r := Prepare(cfg, name, Some(t), [], default, required, false);
            r.Success? && r.value.shape == Singleton && r.value.subFields == []
            && r.value.validators == t.own.value && r.value.preValidators == [] && r.value.postValidators == []
            && r.value.allowNone == (!required && default == NoneV)
  {
    var d := Initial(name, t, [], required).(
      validateAlways := ValidateAlwaysAttr(t) || AnyAlways([]),
      allowNone := !required && default == NoneV);
    assert Analyse(cfg, d) == Success(d);
  }

  /** A field of that kind validates a value other than `None` with its chain alone. */
  lemma ChainFieldValidate(d: FieldDesc, v: Value, loc: Loc, run: Runner)
    requires d.shape == Singleton && d.subFields == [] && d.preValidators == [] && d.postValidators == []
    requires v != NoneV
    ensures Validate(d, v, loc, run) == ApplyValidators(d.validators, v, loc, run)
  {
    ValidationProperties.PostOnlyOnSuccess(d, v, loc, run);
    assert Dispatch(d, v, loc, run) == ValidateSingleton(d, v, loc, run);
  }

  /** A `StrictBool` field accepts exactly the booleans, unchanged; `None` only when the field allows it. */
  lemma StrictBoolField(cfg: Config, name: string, default: Value, required: bool, v: Value, loc: Loc, run: Runner)
    requires RunsStrictBool(run)
    ensures var r := Prepare(cfg, name, Some(ChainType("StrictBool", StrictBoolChain)), [], default, required, false);
            r.Success?
            && Validate(r.value, v, loc, run)
               == if v == NoneV then
                    (if !required && default == NoneV then Returned(NoneV, None)
                     else Returned(NoneV, Some(Wrapper(NoneIsNotAllowed, loc))))
                  else if v.Bool? then Returned(v, None)
                  else Returned(v, Some(Wrapper(StrictBoolError, loc)))
  {
    OwnChainField(cfg, name, ChainType("StrictBool", StrictBoolChain), default, required);
    var d := Prepare(cfg, name, Some(ChainType("StrictBool", StrictBoolChain)), [], default, required, false).value;
    if v == NoneV {
      ValidationProperties.NoneHandling(d, v, loc, run);
    } else {
      ChainFieldValidate(d, v, loc, run);
      assert StrictBoolChain[1..] == [];
    }
  }

  /** The outcome of `ConstrainedStr.validate` on `s` as the last validator of a field at `loc`. */
  function StrOutcome(curtail: Option<int>, regex: Option<Pattern>, s: string, loc: Loc): Outcome {
    var r := ValidateStr(curtail, regex, s);
    if r.Success? then Returned(Str(r.value), None) else Returned(Str(s), Some(Wrapper(r.error, loc)))
  }

  /** What `ConstrainedStr.validate` makes of the string `s` as the last validator of the chain. */
  lemma StrValidateStep(curtail: Option<int>, regex: Option<Pattern>, s: string, loc: Loc, run: Runner)
    requires RunsConstrainedStr(run, curtail, regex)
    ensures ApplyValidators([ConstrainedStrValidate], Str(s), loc, run)
            == StrOutcome(curtail, regex, s, loc)
  {
    assert [ConstrainedStrValidate][1..] == [];
  }

  /**
   * A constrained string field: once the library validators have made the
   * input the string `s`, the field returns `s` curtailed when the pattern
   * matches it, and files `StrRegexError` at the field otherwise.
   */
  lemma ConstrainedStrField(cfg: Config, name: string, default: Value, required: bool, strict: bool,
                            curtail: Option<int>, regex: Option<Pattern>, v: Value, s: string, loc: Loc, run: Runner)
    requires RunsConstrainedStr(run, curtail, regex)
    requires v != NoneV
    requires ApplyValidators(ConstrainedStrChain(strict)[..3], v, loc, run) == Returned(Str(s), None)
    ensures var r := Prepare(cfg, name, Some(ChainType("ConstrainedStr", ConstrainedStrChain(strict))), [], default, required, false);
            r.Success?
            && Validate(r.value, v, loc, run)
               == StrOutcome(curtail, regex, s, loc)
  {
    var chain := ConstrainedStrChain(strict);
    OwnChainField(cfg, name, ChainType("ConstrainedStr", chain), default, required);
    var d := Prepare(cfg, name, Some(ChainType("ConstrainedStr", chain)), [], default, required, false).value;
    ChainFieldValidate(d, v, loc, run);
    ValidationProperties.ApplyAppend(chain[..3], [ConstrainedStrValidate], v, loc, run);
    assert chain[..3] + [ConstrainedStrValidate] == chain;
    StrValidateStep(curtail, regex, s, loc, run);
  }

  /** `AddListValidators` for the one validator of a constrained list, with no class validators. */
  lemma ListValidatorRegistered()
    ensures AddListValidators([], ConstrainedListChain, 1)
            == [NamedValidator("list_" + NatToString(0), ClassValidator(ListLengthValidator, true, false, true))]
    ensures Funcs(AddListValidators([], ConstrainedListChain, 1), false, true) == [ListLengthValidator]
    ensures Funcs(AddListValidators([], ConstrainedListChain, 1), false, false) == []
  {
    var cvs := AddListValidators([], ConstrainedListChain, 1);
    assert AddListValidators([], ConstrainedListChain, 0) == [];
    assert cvs == [NamedValidator("list_" + NatToString(0), ClassValidator(ListLengthValidator, true, false, true))];
    assert cvs[1..] == [];
  }

  /**
   * A constrained list field, with no class validators and not `const`, runs
   * `list_length_validator` alone before anything else.
   */
  lemma ConstrainedListPrepared(cfg: Config, name: string, elem: Type, default: Value, required: bool)
    ensures var r := Prepare(cfg, name, Some(ListT(elem, ConstrainedListChain)), [], default, required, false);
            r.Success? ==> r.value.shape == ListShape && r.value.preValidators == [ListLengthValidator]
                           && r.value.postValidators == []
  {
    var t := ListT(elem, ConstrainedListChain);
    var d := Initial(name, t, [], required).(
      validateAlways := ValidateAlwaysAttr(t) || AnyAlways([]),
      allowNone := !required && default == NoneV);
    ListValidatorRegistered();
    AnalysisProperties.ListAnalysed(cfg, d, elem, ConstrainedListChain);
    JsonFlagKept(cfg, d, elem, ConstrainedListChain);
    var a := Analyse(cfg, d);
    if a.Success? {
      assert Prepare(cfg, name, Some(t), [], default, required, false) == Success(Populate(cfg, a.value, false));
    }
  }

  /** Analysing a list type leaves the field's `Json` flag unset. */
  lemma JsonFlagKept(cfg: Config, d: FieldDesc, elem: Type, own: seq<Validator>)
    requires d.typ == ListT(elem, own) && !d.parseJson
    ensures Analyse(cfg, d).Success? ==> !Analyse(cfg, d).value.parseJson
  {
    var d' := d.(classValidators := AddListValidators(d.classValidators, own, |own|), typ := elem, shape := ListShape);
    assert UnwrapJson(d) == d;
    assert AnalyseUnwrapped(cfg, d) == AnalyseContainer(cfg, d) == WithElement(cfg, d');
  }

  /**
   * A constrained list field checks the length of the whole input before any
   * element: a list outside the bounds (or a value without a length, `None`
   * included) is refused with the length error at the field, its elements
   * unvalidated.
   */
  lemma ConstrainedListField(cfg: Config, name: string, elem: Type, minItems: Option<int>, maxItems: Option<int>,
                             default: Value, required: bool, v: Value, loc: Loc, run: Runner)
    requires RunsListLength(run, minItems, maxItems)
    requires ListLength(minItems, maxItems, v).Failure?
    ensures var r := Prepare(cfg, name, Some(ListT(elem, ConstrainedListChain)), [], default, required, false);
            r.Success? ==>
              Validate(r.value, v, loc, run) == Returned(v, Some(Wrapper(ListLength(minItems, maxItems, v).error, loc)))
  {
    ConstrainedListPrepared(cfg, name, elem, default, required);
    var r := Prepare(cfg, name, Some(ListT(elem, ConstrainedListChain)), [], default, required, false);
    if r.Success? {
      var pre := r.value.preValidators;
      assert pre[1..] == [];
      assert ApplyValidators(pre, v, loc, run) == Returned(v, Some(Wrapper(ListLength(minItems, maxItems, v).error, loc)));
      ValidationProperties.PreFailureStops(r.value, v, loc, run, r.value.shape, r.value.subFields,
                                           r.value.validators, r.value.postValidators, r.value.allowNone);
      assert r.value.(shape := r.value.shape, subFields := r.value.subFields, validators := r.value.validators,
                      postValidators := r.value.postValidators, allowNone := r.value.allowNone) == r.value;
    }
  }

  /**
   * A list within the bounds passes the length check unchanged and is then
   * validated element by element: the field's result is that of
   * `_validate_sequence_like` on the input, with no post-validators after it.
   */
  lemma ConstrainedListFieldPasses(cfg: Config, name: string, elem: Type, minItems: Option<int>, maxItems: Option<int>,
                                   default: Value, required: bool, v: Value, loc: Loc, run: Runner)
    requires RunsListLength(run, minItems, maxItems)
    requires ListLength(minItems, maxItems, v).Success?
    ensures var r := Prepare(cfg, name, Some(ListT(elem, ConstrainedListChain)), [], default, required, false);
            r.Success? ==> Validate(r.value, v, loc, run) == ValidateSequenceLike(r.value, v, loc, run)
  {
    ConstrainedListPrepared(cfg, name, elem, default, required);
    var r := Prepare(cfg, name, Some(ListT(elem, ConstrainedListChain)), [], default, required, false);
    if r.Success? {
      var pre := r.value.preValidators;
      assert pre[1..] == [];
      assert ApplyValidators(pre, v, loc, run) == Returned(v, None);
      ValidationProperties.PostOnlyOnSuccess(r.value, v, loc, run);
    }
  }

  /** What the card number's own validators make of the string `s`, in the chain's order. */
  function CardOutcome(s: string, loc: Loc): Outcome {
    if !IsDigits(s) then Returned(Str(s), Some(Wrapper(NotDigitError, loc)))
    else if LuhnSumAsWritten(s) % 10 != 0 then Returned(Str(s), Some(Wrapper(LuhnValidationError, loc)))
    else if LengthForBrandAsWritten(s, GetBrand(s)).Failure? then
      Returned(Str(s), Some(Wrapper(InvalidLengthForBrand(GetBrand(s), RequiredLengthAsWritten(GetBrand(s))), loc)))
    else Returned(Str(s), None)
  }

  /** The last four validators of the card chain, run on the string `s`. */
  lemma CardChecks(s: string, loc: Loc, run: Runner)
    requires RunsCardChecks(run)
    ensures ApplyValidators(PaymentCardChain[3..], Str(s), loc, run) == CardOutcome(s, loc)
  {
    var rest := PaymentCardChain[3..];
    assert rest == [ValidateDigitsValidator, LuhnValidator, CardClass, LengthForBrandValidator];
    if IsDigits(s) {
      assert rest[1..] == [LuhnValidator, CardClass, LengthForBrandValidator];
      if LuhnSumAsWritten(s) % 10 == 0 {
        assert rest[1..][1..] == [CardClass, LengthForBrandValidator];
        assert rest[1..][1..][1..] == [LengthForBrandValidator];
        assert rest[1..][1..][1..][1..] == [];
        var b := LengthForBrandAsWritten(s, GetBrand(s));
        assert run(LengthForBrandValidator, Str(s)) == (if b.Success? then Pass(Str(s)) else Reject(b.error));
        assert ApplyValidators(rest[1..][1..][1..], Str(s), loc, run) == CardOutcome(s, loc);
        assert run(CardClass, Str(s)) == Pass(Str(s));
        assert ApplyValidators(rest[1..][1..], Str(s), loc, run) == CardOutcome(s, loc);
      }
    }
  }

  /**
   * A payment card field: once the library validators have made the input the
   * string `s`, the field accepts `s` exactly when it is all digits, passes the
   * Luhn check as written and has the length its brand is held to as written,
   * and otherwise files the first failing check's error at the field.
   */
  lemma PaymentCardField(cfg: Config, name: string, default: Value, required: bool,
                         v: Value, s: string, loc: Loc, run: Runner)
    requires RunsCardChecks(run)
    requires v != NoneV
    requires ApplyValidators(PaymentCardChain[..3], v, loc, run) == Returned(Str(s), None)
    ensures var r := Prepare(cfg, name, Some(ChainType("PaymentCardNumber", PaymentCardChain)), [], default, required, false);
            r.Success? && Validate(r.value, v, loc, run) == CardOutcome(s, loc)
  {
    var chain := PaymentCardChain;
    OwnChainField(cfg, name, ChainType("PaymentCardNumber", chain), default, required);
    var d := Prepare(cfg, name, Some(ChainType("PaymentCardNumber", chain)), [], default, required, false).value;
    ChainFieldValidate(d, v, loc, run);
    ValidationProperties.ApplyAppend(chain[..3], chain[3..], v, loc, run);
    assert chain[..3] + chain[3..] == chain;
    CardChecks(s, loc, run);
  }
}
