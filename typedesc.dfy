/**
 * The closed set of type descriptors the shape classifier works on, in place
 * of Python's runtime type hints, and the validator descriptions attached to
 * fields.
 */
module TypeDescriptors {

  import opened Wrappers
  import opened Values

  /** A validator function. Its behaviour is given by the caller of validation (see `Validation.Runner`). */
  datatype Validator =
    | Fn(name: string)          // a library or user validator
    | ConstantCheck             // `constant_validator`, for a field declared `const`
    | JsonParse                 // `validate_json`, for a `Json` field
    | DictCoerce                // `dict_validator` on a value that is not already a dict

  /** A class validator: its function and its `pre`, `each_item` and `always` flags. */
  datatype ClassValidator = ClassValidator(func: Validator, pre: bool, eachItem: bool, always: bool)

  /** One entry of the ordered `class_validators` dict. */
  datatype NamedValidator = NamedValidator(name: string, spec: ClassValidator)

  /**
   * A resolved type hint. `Class` is a plain class; its `own` chain is what its
   * `__get_validators__` yields, when it has one. `ListT.listValidators` is the chain of a
   * constrained list type (empty for `List[T]`). `Unsupported` is a generic whose
   * origin the classifier does not know.
   */
  datatype Type =
    | NoneType
    | AnyType
    | Class(name: string, own: Option<seq<Validator>>, validateAlways: bool, complex: bool)
    | PatternT
    | Literal(values: seq<Value>)
    | CallableT
    | TypeOfT(arg: Type)
    | Union(args: seq<Type>)
    | Tuple(args: seq<Type>)
    | Ellipsis
    | ListT(elem: Type, listValidators: seq<Validator>)
    | SetT(elem: Type)
    | FrozenSetT(elem: Type)
    | SequenceT(elem: Type)
    | MappingT(key: Type, value: Type)
    | Unsupported(origin: string, args: seq<Type>)
    | Json
    | JsonWrapper(inner: Type)
    | ForwardRef(ref: string)

  datatype Shape =
    | Singleton | ListShape | SetShape | MappingShape | TupleShape
    | TupleEllipsisShape | SequenceShape | FrozenSetShape

  /**
   * What the model configuration and the helper modules provide to field
   * preparation: the validator registry (`find_validators`) and the display
   * name of a type (`display_as_type`). Both are total: the registry is
   * taken never to raise, so preparation fails only where the model says.
   */
  datatype Config = Config(findValidators: Type -> seq<Validator>, displayAsType: Type -> string)

  /** A size that decreases along every step of type analysis. */
  function Size(t: Type): (n: nat)
    ensures n >= 1
  {
    match t
    case Literal(vs) => if |vs| <= 1 then 1 else 1 + |vs|
    case TypeOfT(a) => 1 + Size(a)
    case Union(args) => 1 + SizeAll(args)
    case Tuple(args) => 1 + SizeAll(args)
    case Unsupported(_, args) => 1 + SizeAll(args)
    case ListT(e, _) => 1 + Size(e)
    case SetT(e) => 1 + Size(e)
    case FrozenSetT(e) => 1 + Size(e)
    case SequenceT(e) => 1 + Size(e)
    case MappingT(k, v) => 1 + Size(k) + Size(v)
    case JsonWrapper(inner) => 1 + Size(inner)
    case _ => 1
  }

  function SizeAll(ts: seq<Type>): nat {
    if ts == [] then 0 else Size(ts[0]) + SizeAll(ts[1..])
  }

  /** `type(v)`, for a field whose type is inferred from its default. */
  function TypeOf(v: Value): Type {
    match v
    case NoneV => NoneType
    case Bool(_) => Class("bool", None, false, false)
    case Int(_) => Class("int", None, false, false)
    case Str(_) => Class("str", None, false, false)
    case Bytes(_) => Class("bytes", None, false, false)
    case Obj(_) => Class("object", None, false, false)
    case Coll(ListKind, _) => Class("list", None, false, true)
    case Coll(TupleKind, _) => Class("tuple", None, false, false)
    case Coll(SetKind, _) => Class("set", None, false, true)
    case Coll(FrozenSetKind, _) => Class("frozenset", None, false, false)
    case Coll(GeneratorKind, _) => Class("generator", None, false, false)
    case Dict(_) => Class("dict", None, false, true)
  }

  function DigitChar(d: nat): char
    requires d < 10
  {
    "0123456789"[d]
  }

  /** `str(n)` for a position index. */
  function NatToString(n: nat): string
    decreases n
  {
    if n < 10 then [DigitChar(n)] else NatToString(n / 10) + [DigitChar(n % 10)]
  }
}
