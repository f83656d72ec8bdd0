/**
 * Error kinds, locations and error lists. A validation error is an exception
 * bound to a location (an `ErrorWrapper`); an error list is one wrapper or a
 * list of error lists, as nested as the recursion that produced it.
 */
module Errors {

  import opened Wrappers
  import opened Values

  /** A location segment: a position in a sequence, or a key (field names are `Str` keys). */
  datatype Seg = Index(i: int) | Key(k: Value)

  /** A location: the plain field name a caller may pass, or a tuple of segments. */
  datatype Loc = Name(s: string) | Path(segs: seq<Seg>)

  /** `loc if isinstance(loc, tuple) else (loc,)`. */
  function AsPath(loc: Loc): (p: seq<Seg>)
    ensures loc.Path? ==> p == loc.segs
    ensures loc.Name? ==> p == [Key(Str(loc.s))]
  {
    match loc
    case Name(s) => [Key(Str(s))]
    case Path(segs) => segs
  }

  /** The segment `'__key__'` under which the errors of a mapping's keys are filed. */
  const KeyMarker: Seg := Key(Str("__key__"))

  datatype PaymentCardBrand = Amex | Mastercard | Visa | OtherBrand

  /** The exceptions a validator may raise and the engine files as validation errors. */
  datatype Exc =
    | NoneIsNotAllowed
    | ListError | SetError | FrozenSetError | SequenceError | TupleError | DictError
    | TupleLengthError(actualLength: nat, expectedLength: nat)
    | NoLenError                            // `len()` of a value without a length raises `TypeError`
    | ListMinLengthError(minLimit: int)
    | ListMaxLengthError(maxLimit: int)
    | AnyStrMinLengthError(minLength: int)
    | AnyStrMaxLengthError(maxLength: int)
    | StrRegexError(pattern: string)
    | StrictBoolError
    | DecimalIsNotFiniteError
    | DecimalMaxDigitsError(maxDigits: int)
    | DecimalMaxPlacesError(decimalPlaces: int)
    | DecimalWholeDigitsError(wholeDigits: int)
    | NotDigitError
    | LuhnValidationError
    | InvalidLengthForBrand(brand: PaymentCardBrand, requiredLength: Option<int>)
    | ValidatorError(message: string)       // raised by a user or library validator

  datatype ErrorList = Wrapper(exc: Exc, loc: Loc) | Errors(items: seq<ErrorList>)

  /** Python truthiness of the `errors` slot of a validation result (`None` and `[]` are falsy). */
  predicate Truthy(e: Option<ErrorList>) {
    e.Some? && e.value != Errors([])
  }

  /** Every wrapper in `e` sits at a location that extends `prefix`. */
  predicate Under(e: ErrorList, prefix: seq<Seg>) {
    match e
    case Wrapper(_, loc) => prefix <= AsPath(loc)
    case Errors(items) => forall i :: 0 <= i < |items| ==> Under(items[i], prefix)
  }
}
