/**
 * `Field.validate` and its helpers as functions over a prepared field
 * (`Analysis.FieldDesc`). The methods of `Fields.Field` run the same steps
 * with loops and are proved to return exactly these outcomes.
 */
module Validation {

  import opened Wrappers
  import opened Values
  import opened Errors
  import opened TypeDescriptors
  import opened Analysis

  /**
   * What calling one validator does: return a (possibly new) value, raise
   * `ValueError`, `TypeError` or `AssertionError` (`Reject`), or raise any other
   * exception (`Crash`), which no part of the engine catches.
   */
  datatype Step = Pass(value: Value) | Reject(exc: Exc) | Crash

  /**
   * The behaviour of every validator. The sibling values, the model class,
   * the field and the configuration a validator also receives are fixed for
   * one validation call and folded into it.
   */
  type Runner = (Validator, Value) -> Step

  /** A validation result `(value, errors)`, or an exception that escaped the engine. */
  datatype Outcome = Returned(value: Value, errors: Option<ErrorList>) | Raised

  /** `_apply_validators`: thread the value through the chain; the first caught exception stops it. */
  function ApplyValidators(chain: seq<Validator>, v: Value, loc: Loc, run: Runner): Outcome
    decreases |chain|
  {
    if chain == [] then Returned(v, None)
    else
      match run(chain[0], v)
      case Pass(w) => ApplyValidators(chain[1..], w, loc, run)
      case Reject(e) => Returned(v, Some(Wrapper(e, loc)))
      case Crash => Raised
  }

  /** `validate`: pre-validators, the `None` check, dispatch on shape, then post-validators. */
  function Validate(d: FieldDesc, v: Value, loc: Loc, run: Runner): Outcome
    decreases d, 5, 0
  {
    var pre := if d.preValidators != [] then ApplyValidators(d.preValidators, v, loc, run) else Returned(v, None);
    match pre
    case Raised => Raised
    case Returned(v1, e1) =>
      if Truthy(e1) then pre
      else if v1 == NoneV then
        if d.allowNone then
          (if d.postValidators != [] then ApplyValidators(d.postValidators, v1, loc, run) else Returned(NoneV, None))
        else Returned(v1, Some(Wrapper(NoneIsNotAllowed, loc)))
      else
        match Dispatch(d, v1, loc, run)
        case Raised => Raised
        case Returned(v2, e2) =>
          if !Truthy(e2) && d.postValidators != [] then ApplyValidators(d.postValidators, v2, loc, run)
          else Returned(v2, e2)
  }

  /** The shape-specific part of `validate`. */
  function Dispatch(d: FieldDesc, v: Value, loc: Loc, run: Runner): Outcome
    decreases d, 4, 0
  {
    match d.shape
    case Singleton => ValidateSingleton(d, v, loc, run)
    case MappingShape => ValidateMapping(d, v, loc, run)
    case TupleShape => ValidateTuple(d, v, loc, run)
    case _ => ValidateSequenceLike(d, v, loc, run)
  }

  /** `_validate_singleton`: try the sub-fields as union members, or apply the field's own validators. */
  function ValidateSingleton(d: FieldDesc, v: Value, loc: Loc, run: Runner): Outcome
    decreases d, 1, 0
  {
    if d.subFields != [] then UnionFrom(d, 0, v, loc, run, [])
    else ApplyValidators(d.validators, v, loc, run)
  }

  /** The union loop from sub-field `i` on, with the errors of the members already tried. */
  function UnionFrom(d: FieldDesc, i: nat, v: Value, loc: Loc, run: Runner, errors: seq<ErrorList>): Outcome
    requires i <= |d.subFields|
    decreases d, 0, |d.subFields| - i
  {
    if i == |d.subFields| then Returned(v, Some(Errors(errors)))
    else
      match Validate(d.subFields[i], v, loc, run)
      case Raised => Raised
      case Returned(value, error) =>
        if Truthy(error) then UnionFrom(d, i + 1, v, loc, run, errors + [error.value])
        else Returned(value, None)
  }

  /** The error a non-sequence input raises for each sequence-like shape. */
  function ShapeError(shape: Shape): Exc {
    match shape
    case ListShape => ListError
    case SetShape => SetError
    case FrozenSetShape => FrozenSetError
    case _ => SequenceError
  }

  /** The container the validated elements are collected into, by shape (and input kind for `Sequence`). */
  function Convert(shape: Shape, v: Value, result: seq<Value>): Value
    requires v.Coll?
  {
    match shape
    case SetShape => Coll(SetKind, Dedup(result))
    case FrozenSetShape => Coll(FrozenSetKind, Dedup(result))
    case TupleEllipsisShape => Coll(TupleKind, result)
    case SequenceShape =>
      (match v.kind
       case TupleKind => Coll(TupleKind, result)
       case SetKind => Coll(SetKind, Dedup(result))
       case GeneratorKind => Coll(GeneratorKind, result)
       case _ => Coll(ListKind, result))
    case _ => Coll(ListKind, result)
  }

  /** `_validate_sequence_like`. */
  function ValidateSequenceLike(d: FieldDesc, v: Value, loc: Loc, run: Runner): Outcome
    decreases d, 3, 0
  {
    if !SequenceLike(v) then Returned(v, Some(Wrapper(ShapeError(d.shape), loc)))
    else SeqFrom(d, v, AsPath(loc), 0, [], [], run)
  }

  /** The element loop of `_validate_sequence_like` from element `i` on. */
  function SeqFrom(d: FieldDesc, v: Value, path: seq<Seg>, i: nat,
                   result: seq<Value>, errors: seq<ErrorList>, run: Runner): Outcome
    requires v.Coll? && i <= |v.items|
    decreases d, 2, |v.items| - i
  {
    if i == |v.items| then
      if errors != [] then Returned(v, Some(Errors(errors))) else Returned(Convert(d.shape, v, result), None)
    else
      match ValidateSingleton(d, v.items[i], Path(path + [Index(i)]), run)
      case Raised => Raised
      case Returned(r, ee) =>
        if Truthy(ee) then SeqFrom(d, v, path, i + 1, result, errors + [ee.value], run)
        else SeqFrom(d, v, path, i + 1, result + [r], errors, run)
  }

  /**
   * `_validate_tuple`. Asking a generator for its length raises `TypeError`
   * outside any handler, so a generator input escapes as an exception.
   */
  function ValidateTuple(d: FieldDesc, v: Value, loc: Loc, run: Runner): Outcome
    decreases d, 3, 0
  {
    if !SequenceLike(v) then Returned(v, Some(Wrapper(TupleError, loc)))
    else if v.kind == GeneratorKind then Raised
    else if |v.items| != |d.subFields| then
      Returned(v, Some(Wrapper(TupleLengthError(|v.items|, |d.subFields|), loc)))
    else TupleFrom(d, v, AsPath(loc), 0, [], [], run)
  }

  /** The position loop of `_validate_tuple` from position `i` on. */
  function TupleFrom(d: FieldDesc, v: Value, path: seq<Seg>, i: nat,
                     result: seq<Value>, errors: seq<ErrorList>, run: Runner): Outcome
    requires v.Coll? && |v.items| == |d.subFields| && i <= |v.items|
    decreases d, 2, |v.items| - i
  {
    if i == |v.items| then
      if errors != [] then Returned(v, Some(Errors(errors))) else Returned(Coll(TupleKind, result), None)
    else
      match Validate(d.subFields[i], v.items[i], Path(path + [Index(i)]), run)
      case Raised => Raised
      case Returned(r, ee) =>
        if Truthy(ee) then TupleFrom(d, v, path, i + 1, result, errors + [ee.value], run)
        else TupleFrom(d, v, path, i + 1, result + [r], errors, run)
  }

  /**
   * `dict_validator`: a dict is taken as it is; anything else is coerced by the
   * runner's `DictCoerce` step, whose `Reject` is the `TypeError` (such as
   * `DictError`) that `_validate_mapping` catches.
   */
  function DictValidator(v: Value, run: Runner): (r: Step)
    ensures v.Dict? ==> r == Pass(v)
    ensures !v.Dict? ==> r == run(DictCoerce, v)
  {
    if v.Dict? then Pass(v) else run(DictCoerce, v)
  }

  /**
   * `_validate_mapping`. A coercion that yields no dict leaves `.items()`
   * without a target, an exception nothing catches.
   */
  function ValidateMapping(d: FieldDesc, v: Value, loc: Loc, run: Runner): Outcome
    decreases d, 3, 0
  {
    match DictValidator(v, run)
    case Crash => Raised
    case Reject(e) => Returned(v, Some(Wrapper(e, loc)))
    case Pass(w) => if w.Dict? then MapFrom(d, v, w.entries, AsPath(loc), 0, [], [], run) else Raised
  }

  /**
   * The entry loop of `_validate_mapping` from entry `i` on. A field with no
   * key field fails on its first entry (`None.validate` raises `AttributeError`).
   */
  function MapFrom(d: FieldDesc, v: Value, entries: seq<Entry>, path: seq<Seg>, i: nat,
                   result: seq<Entry>, errors: seq<ErrorList>, run: Runner): Outcome
    requires i <= |entries|
    decreases d, 2, |entries| - i
  {
    if i == |entries| then
      if errors != [] then Returned(v, Some(Errors(errors))) else Returned(Dict(result), None)
    else if d.keyField.None? then Raised
    else
      match Validate(d.keyField.value, entries[i].key, Path(path + [KeyMarker]), run)
      case Raised => Raised
      case Returned(kr, ke) =>
        if Truthy(ke) then MapFrom(d, v, entries, path, i + 1, result, errors + [ke.value], run)
        else
          match ValidateSingleton(d, entries[i].val, Path(path + [Key(entries[i].key)]), run)
          case Raised => Raised
          case Returned(vr, ve) =>
            if Truthy(ve) then MapFrom(d, v, entries, path, i + 1, result, errors + [ve.value], run)
            else MapFrom(d, v, entries, path, i + 1, Put(result, kr, vr), errors, run)
  }
}
