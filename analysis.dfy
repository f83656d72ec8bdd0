/**
 * Field preparation as a function: the slots a `Field` holds once `prepare`,
 * `_type_analysis` and `_populate_validators` have run. The class
 * `Fields.Field` performs the same steps by updating its slots, and is proved
 * to reach exactly these values.
 */
module Analysis {

  import opened Wrappers
  import opened Values
  import opened TypeDescriptors

  /** The slots of a field; `subFields == []` stands for `sub_fields is None`, and so on. */
  datatype FieldDesc = FieldDesc(
    name: string,
    typ: Type,
    shape: Shape,
    required: bool,
    allowNone: bool,
    validateAlways: bool,
    parseJson: bool,
    classValidators: seq<NamedValidator>,
    subFields: seq<FieldDesc>,
    keyField: Option<FieldDesc>,
    validators: seq<Validator>,
    preValidators: seq<Validator>,
    postValidators: seq<Validator>)

  /** The errors field preparation raises; both abort the construction of the field. */
  datatype SetupError = ConfigError(message: string) | UnsupportedType(origin: string)

  /** The slots as `__init__` sets them before calling `prepare`. */
  function Initial(name: string, t: Type, cvs: seq<NamedValidator>, required: bool): FieldDesc {
    FieldDesc(name, t, Singleton, required, false, false, false, cvs, [], None, [], [], [])
  }

  /** `type_`, or the type of the default when no type is given and the default is not `None`. */
  function InferType(typ: Option<Type>, default: Value): Option<Type> {
    if default != NoneV && typ.None? then Some(TypeOf(default)) else typ
  }

  function PrepareSize(typ: Option<Type>, default: Value): nat {
    match InferType(typ, default)
    case None => 0
    case Some(t) => Size(t)
  }

  /** The `validate_always` class attribute of a type (false when absent). */
  function ValidateAlwaysAttr(t: Type): bool {
    t.Class? && t.validateAlways
  }

  predicate AnyAlways(cvs: seq<NamedValidator>) {
    exists i :: 0 <= i < |cvs| && cvs[i].spec.always
  }

  /** The class validators a sub-field inherits: those applying to each item. */
  function EachItem(cvs: seq<NamedValidator>): (r: seq<NamedValidator>)
    ensures forall x :: x in r <==> x in cvs && x.spec.eachItem
    ensures |r| <= |cvs|
  {
    if cvs == [] then []
    else (if cvs[0].spec.eachItem then [cvs[0]] else []) + EachItem(cvs[1..])
  }

  /** The functions of the class validators with the given `each_item` and `pre` flags, in order. */
  function Funcs(cvs: seq<NamedValidator>, eachItem: bool, pre: bool): seq<Validator> {
    if cvs == [] then []
    else
      (if cvs[0].spec.eachItem == eachItem && cvs[0].spec.pre == pre then [cvs[0].spec.func] else [])
      + Funcs(cvs[1..], eachItem, pre)
  }

  /** `class_validators[name] = cv`: an existing name keeps its position. */
  function UpdateValidator(cvs: seq<NamedValidator>, name: string, cv: ClassValidator): seq<NamedValidator> {
    if cvs == [] then [NamedValidator(name, cv)]
    else if cvs[0].name == name then [NamedValidator(name, cv)] + cvs[1..]
    else [cvs[0]] + UpdateValidator(cvs[1..], name, cv)
  }

  /**
   * `class_validators.update({f'list_{i}': Validator(f, each_item=False, pre=True, always=True)})`
   * for the validators of a constrained list type, the first `n` of them.
   */
  function AddListValidators(cvs: seq<NamedValidator>, own: seq<Validator>, n: nat): seq<NamedValidator>
    requires n <= |own|
  {
    if n == 0 then cvs
    else
      UpdateValidator(AddListValidators(cvs, own, n - 1), "list_" + NatToString(n - 1),
                      ClassValidator(own[n - 1], true, false, true))
  }

  /** The members of a union other than `NoneType`, in order. */
  function NonNone(args: seq<Type>): (r: seq<Type>)
    ensures |r| <= |args|
    ensures forall t :: t in r <==> t in args && t != NoneType
    ensures SizeAll(r) <= SizeAll(args)
  {
    if args == [] then []
    else
      var h: seq<Type> := if args[0] == NoneType then [] else [args[0]];
      SizeAllAppend(h, NonNone(args[1..]));
      h + NonNone(args[1..])
  }

  /** `NonNone` taken one argument further. */
  lemma {:induction false} NonNoneSnoc(args: seq<Type>, t: Type)
    ensures NonNone(args + [t]) == NonNone(args) + (if t == NoneType then [] else [t])
  {
    if args != [] {
      assert (args + [t])[1..] == args[1..] + [t];
      NonNoneSnoc(args[1..], t);
    } else {
      assert args + [t] == [t];
    }
  }

  /** `Union[tuple(Literal[value] for value in values)]`. */
  function LiteralMembers(vs: seq<Value>): (r: seq<Type>)
    ensures |r| == |vs|
    ensures forall i :: 0 <= i < |vs| ==> r[i] == Literal([vs[i]])
    ensures SizeAll(r) == |vs|
  {
    if vs == [] then []
    else
      SizeAllAppend([Literal([vs[0]])], LiteralMembers(vs[1..]));
      [Literal([vs[0]])] + LiteralMembers(vs[1..])
  }

  /** The index of the first `Ellipsis` among the arguments of a tuple, or their number. */
  function FirstEllipsis(args: seq<Type>): (k: nat)
    ensures k <= |args|
    ensures forall i :: 0 <= i < k ==> args[i] != Ellipsis
    ensures k < |args| ==> args[k] == Ellipsis
  {
    if args == [] then 0
    else if args[0] == Ellipsis then 0
    else 1 + FirstEllipsis(args[1..])
  }

  /** Sub-field names `{name}_{display_as_type(t)}` of a union's members. */
  function UnionNames(cfg: Config, name: string, ts: seq<Type>): (r: seq<string>)
    ensures |r| == |ts|
  {
    if ts == [] then [] else [name + "_" + cfg.displayAsType(ts[0])] + UnionNames(cfg, name, ts[1..])
  }

  lemma SizeAllAppend(a: seq<Type>, b: seq<Type>)
    ensures SizeAll(a + b) == SizeAll(a) + SizeAll(b)
  {
    if a == [] {
      assert a + b == b;
    } else {
      assert (a + b)[0] == a[0];
      assert (a + b)[1..] == a[1..] + b;
      SizeAllAppend(a[1..], b);
    }
  }

  lemma SizeAllPrefix(ts: seq<Type>, k: nat)
    requires k <= |ts|
    ensures SizeAll(ts[..k]) <= SizeAll(ts)
  {
    if k > 0 {
      assert ts[..k][1..] == ts[1..][..k - 1];
      SizeAllPrefix(ts[1..], k - 1);
    }
  }

  lemma LiteralSize(vs: seq<Value>)
    requires |vs| > 1
    ensures 1 + SizeAll(LiteralMembers(vs)) <= Size(Literal(vs))
  {
  }

  lemma SizeMember(ts: seq<Type>, i: nat)
    requires i < |ts|
    ensures Size(ts[i]) <= SizeAll(ts)
  {
    if i > 0 {
      SizeMember(ts[1..], i - 1);
    }
  }

  /**
   * `Field(...)`: `__init__` followed by `prepare`. A missing type is a
   * configuration error; a forward reference is left unprepared.
   */
  function Prepare(cfg: Config, name: string, typ: Option<Type>, cvs: seq<NamedValidator>,
                   default: Value, required: bool, isConst: bool): Result<FieldDesc, SetupError>
    decreases PrepareSize(typ, default), 4
  {
    var t := InferType(typ, default);
    if t.None? then Failure(ConfigError("unable to infer type for attribute \"" + name + "\""))
    else if t.value.ForwardRef? then Success(Initial(name, t.value, cvs, required))
    else
      var d := Initial(name, t.value, cvs, required).(
        validateAlways := ValidateAlwaysAttr(t.value) || AnyAlways(cvs),
        allowNone := !required && default == NoneV);
      match Analyse(cfg, d)
      case Failure(e) => Failure(e)
      case Success(d') => Success(Populate(cfg, d', isConst))
  }

  /** `_create_sub_type` for each of `ts`, in order; the first failure aborts. */
  function PrepareAll(cfg: Config, ts: seq<Type>, names: seq<string>, cvs: seq<NamedValidator>)
    : (r: Result<seq<FieldDesc>, SetupError>)
    requires |names| == |ts|
    ensures r.Success? ==> |r.value| == |ts|
    decreases SizeAll(ts), 5
  {
    if ts == [] then Success([])
    else
      match Prepare(cfg, names[0], Some(ts[0]), cvs, NoneV, true, false)
      case Failure(e) => Failure(e)
      case Success(f) =>
        (match PrepareAll(cfg, ts[1..], names[1..], cvs)
         case Failure(e) => Failure(e)
         case Success(fs) => Success([f] + fs))
  }

  /** The sub-fields already built, followed by those a later `PrepareAll` builds. */
  function Prefixed(descs: seq<FieldDesc>, r: Result<seq<FieldDesc>, SetupError>): Result<seq<FieldDesc>, SetupError> {
    match r
    case Failure(e) => Failure(e)
    case Success(fs) => Success(descs + fs)
  }

  /** Nothing built yet: `Prefixed` leaves the result as it is. */
  lemma PrefixedNil(r: Result<seq<FieldDesc>, SetupError>)
    ensures Prefixed([], r) == r
  {
    if r.Success? {
      assert [] + r.value == r.value;
    }
  }

  /** One more sub-field built: it moves from the head of the remaining result to the end of the prefix. */
  lemma PrefixedStep(descs: seq<FieldDesc>, f: FieldDesc, r: Result<seq<FieldDesc>, SetupError>)
    ensures Prefixed(descs, match r case Failure(e) => Failure(e) case Success(fs) => Success([f] + fs))
            == Prefixed(descs + [f], r)
  {
    if r.Success? {
      assert descs + ([f] + r.value) == (descs + [f]) + r.value;
    }
  }

  /** A member prepared successfully moves from the remaining work to the sub-fields already built. */
  lemma PrepareAllSuccessStep(cfg: Config, ts: seq<Type>, names: seq<string>, cvs: seq<NamedValidator>,
                              i: nat, descs: seq<FieldDesc>, f: FieldDesc)
    requires |names| == |ts| && i < |ts|
    requires Prepare(cfg, names[i], Some(ts[i]), cvs, NoneV, true, false) == Success(f)
    ensures Prefixed(descs, PrepareAll(cfg, ts[i..], names[i..], cvs))
            == Prefixed(descs + [f], PrepareAll(cfg, ts[i + 1..], names[i + 1..], cvs))
  {
    assert ts[i..][1..] == ts[i + 1..];
    assert names[i..][1..] == names[i + 1..];
    PrefixedStep(descs, f, PrepareAll(cfg, ts[i + 1..], names[i + 1..], cvs));
  }

  /** A member whose preparation fails makes the whole loop fail with its error. */
  lemma PrepareAllFailureStep(cfg: Config, ts: seq<Type>, names: seq<string>, cvs: seq<NamedValidator>,
                              i: nat, descs: seq<FieldDesc>, e: SetupError)
    requires |names| == |ts| && i < |ts|
    requires Prepare(cfg, names[i], Some(ts[i]), cvs, NoneV, true, false) == Failure(e)
    ensures Prefixed(descs, PrepareAll(cfg, ts[i..], names[i..], cvs)) == Failure(e)
  {
    assert ts[i..][0] == ts[i] && names[i..][0] == names[i];
  }

  /**
   * The start of `_type_analysis`: a `Json[T]` field parses JSON before
   * validating as `T`, a bare `Json` field as `Any`.
   */
  function UnwrapJson(d: FieldDesc): (r: FieldDesc)
    ensures Size(r.typ) <= Size(d.typ)
  {
    match d.typ
    case JsonWrapper(inner) => d.(typ := inner, parseJson := true)
    case Json => d.(typ := AnyType, parseJson := true)
    case _ => d
  }

  /** `_type_analysis`: the shape, the sub-fields and the refined type. */
  function Analyse(cfg: Config, d: FieldDesc): Result<FieldDesc, SetupError>
    decreases Size(d.typ), 3
  {
    AnalyseUnwrapped(cfg, UnwrapJson(d))
  }

  /** `_type_analysis` after the `Json` checks: the branches on the type's origin. */
  function AnalyseUnwrapped(cfg: Config, d: FieldDesc): Result<FieldDesc, SetupError>
    decreases Size(d.typ), 2
  {
    match d.typ
    case Literal(vs) =>
      if |vs| > 1 then
        var members := LiteralMembers(vs);
        LiteralSize(vs);
        AnalyseUnion(cfg, d.(typ := Union(members)), members)
      else Success(d)
    case Union(args) => AnalyseUnion(cfg, d, args)
    case Tuple(args) => AnalyseTuple(cfg, d, args)
    case ListT(_, _) => AnalyseContainer(cfg, d)
    case SetT(_) => AnalyseContainer(cfg, d)
    case FrozenSetT(_) => AnalyseContainer(cfg, d)
    case SequenceT(_) => AnalyseContainer(cfg, d)
    case MappingT(_, _) => AnalyseContainer(cfg, d)
    case Unsupported(origin, _) => Failure(UnsupportedType(origin))
    case _ => Success(d)
  }

  /**
   * The container branches of `_type_analysis`: the field takes the element
   * (for a mapping, the value) type, a container shape and one element
   * sub-field; a mapping also gets a key field, and a constrained list's own
   * validators become `list_{i}` class validators.
   */
  function AnalyseContainer(cfg: Config, d: FieldDesc): Result<FieldDesc, SetupError>
    decreases Size(d.typ), 1
  {
    match d.typ
    case ListT(elem, own) =>
      var cvs := AddListValidators(d.classValidators, own, |own|);
      WithElement(cfg, d.(classValidators := cvs, typ := elem, shape := ListShape))
    case SetT(elem) => WithElement(cfg, d.(typ := elem, shape := SetShape))
    case FrozenSetT(elem) => WithElement(cfg, d.(typ := elem, shape := FrozenSetShape))
    case SequenceT(elem) => WithElement(cfg, d.(typ := elem, shape := SequenceShape))
    case MappingT(key, value) => AnalyseMapping(cfg, d, key, value)
    case _ => Success(d)
  }

  /** The mapping branch: a key field `key_{name}` without class validators, then the value type and its element sub-field. */
  function AnalyseMapping(cfg: Config, d: FieldDesc, key: Type, value: Type): Result<FieldDesc, SetupError>
    decreases Size(key) + Size(value), 7
  {
    match Prepare(cfg, "key_" + d.name, Some(key), [], NoneV, true, false)
    case Failure(e) => Failure(e)
    case Success(kf) => WithElement(cfg, d.(keyField := Some(kf), typ := value, shape := MappingShape))
  }

  /**
   * A `NoneType` member makes the field optional; a single other member is
   * analysed in place of the union; several become one sub-field each.
   */
  function AnalyseUnion(cfg: Config, d: FieldDesc, args: seq<Type>): Result<FieldDesc, SetupError>
    decreases 1 + SizeAll(args), 1
  {
    var members := NonNone(args);
    var d' := if NoneType in args then d.(required := false, allowNone := true) else d;
    if |members| == 1 then
      SizeMember(members, 0);
      Analyse(cfg, d'.(typ := members[0]))
    else
      match PrepareAll(cfg, members, UnionNames(cfg, d.name, members), EachItem(d.classValidators))
      case Failure(e) => Failure(e)
      case Success(subs) => Success(d'.(subFields := subs))
  }

  /**
   * One sub-field per position; at the first `Ellipsis` the field becomes a
   * variadic tuple over the first argument, keeping the sub-fields built so far.
   */
  function AnalyseTuple(cfg: Config, d: FieldDesc, args: seq<Type>): Result<FieldDesc, SetupError>
    decreases 1 + SizeAll(args), 1
  {
    assert args[0..] == args;
    match PositionFields(cfg, args, d.name, EachItem(d.classValidators), 0)
    case Failure(e) => Failure(e)
    case Success(subs) =>
      if Ellipsis in args then Success(d.(shape := TupleEllipsisShape, subFields := subs, typ := args[0]))
      else Success(d.(shape := TupleShape, subFields := subs))
  }

  /**
   * The sub-fields `{name}_{i}` of a tuple's positions from `i` up to the
   * first `Ellipsis`; the first failure aborts.
   */
  function PositionFields(cfg: Config, args: seq<Type>, name: string, cvs: seq<NamedValidator>, i: nat)
    : Result<seq<FieldDesc>, SetupError>
    requires i <= |args|
    decreases SizeAll(args[i..]), 5
  {
    if i == |args| || args[i] == Ellipsis then Success([])
    else
      assert args[i..][1..] == args[i + 1..];
      match Prepare(cfg, name + "_" + NatToString(i), Some(args[i]), cvs, NoneV, true, false)
      case Failure(e) => Failure(e)
      case Success(f) =>
        (match PositionFields(cfg, args, name, cvs, i + 1)
         case Failure(e) => Failure(e)
         case Success(fs) => Success([f] + fs))
  }

  /** A position prepared successfully moves from the remaining positions to the sub-fields already built. */
  lemma PositionFieldsSuccessStep(cfg: Config, args: seq<Type>, name: string, cvs: seq<NamedValidator>,
                                  i: nat, descs: seq<FieldDesc>, f: FieldDesc)
    requires i < |args| && args[i] != Ellipsis
    requires Prepare(cfg, name + "_" + NatToString(i), Some(args[i]), cvs, NoneV, true, false) == Success(f)
    ensures Prefixed(descs, PositionFields(cfg, args, name, cvs, i))
            == Prefixed(descs + [f], PositionFields(cfg, args, name, cvs, i + 1))
  {
    PrefixedStep(descs, f, PositionFields(cfg, args, name, cvs, i + 1));
  }

  /** A position whose preparation fails makes the whole loop fail with its error. */
  lemma PositionFieldsFailureStep(cfg: Config, args: seq<Type>, name: string, cvs: seq<NamedValidator>,
                                  i: nat, descs: seq<FieldDesc>, e: SetupError)
    requires i < |args| && args[i] != Ellipsis
    requires Prepare(cfg, name + "_" + NatToString(i), Some(args[i]), cvs, NoneV, true, false) == Failure(e)
    ensures Prefixed(descs, PositionFields(cfg, args, name, cvs, i)) == Failure(e)
  {
  }

  /** The loop ends at the end of the arguments or at an `Ellipsis`, with the sub-fields built so far. */
  lemma PositionFieldsStop(cfg: Config, args: seq<Type>, name: string, cvs: seq<NamedValidator>,
                           i: nat, descs: seq<FieldDesc>)
    requires i <= |args| && (i == |args| || args[i] == Ellipsis)
    ensures Prefixed(descs, PositionFields(cfg, args, name, cvs, i)) == Success(descs)
  {
    assert descs + [] == descs;
  }

  /** A position that is not `Ellipsis` extends the `Ellipsis`-free prefix. */
  lemma NoEllipsisSnoc(args: seq<Type>, i: nat)
    requires i < |args| && Ellipsis !in args[..i] && args[i] != Ellipsis
    ensures Ellipsis !in args[..i + 1]
  {
    assert args[..i + 1] == args[..i] + [args[i]];
  }

  /** The single element sub-field `_{name}` of a container, over the refined type. */
  function WithElement(cfg: Config, d: FieldDesc): Result<FieldDesc, SetupError>
    decreases Size(d.typ), 6
  {
    match Prepare(cfg, "_" + d.name, Some(d.typ), EachItem(d.classValidators), NoneV, true, false)
    case Failure(e) => Failure(e)
    case Success(f) => Success(d.(subFields := [f]))
  }

  /** The validator chain a leaf type supplies: its own `__get_validators__`, else the registry's. */
  function TypeChain(cfg: Config, t: Type): seq<Validator> {
    if t.Class? && t.own.Some? then t.own.value else cfg.findValidators(t)
  }

  /** `_populate_validators`. */
  function Populate(cfg: Config, d: FieldDesc, isConst: bool): FieldDesc {
    var cvs := d.classValidators;
    var validators :=
      if d.subFields == [] then Funcs(cvs, true, true) + TypeChain(cfg, d.typ) + Funcs(cvs, true, false)
      else d.validators;
    var pre :=
      (if isConst then [ConstantCheck] else [])
      + (if cvs != [] then Funcs(cvs, false, true) else [])
      + (if d.parseJson then [JsonParse] else []);
    var post := if cvs != [] then Funcs(cvs, false, false) else [];
    d.(validators := validators, preValidators := pre, postValidators := post)
  }

  /**
   * `include_in_schema`: false only for a field whose (refined) type is
   * exactly `NoneType`; of the types of values, that is the type of `None`.
   */
  function IncludeInSchema(d: FieldDesc): (r: bool)
    ensures forall v :: d.typ == TypeOf(v) ==> (r <==> v != NoneV)
  {
    d.typ != NoneType
  }

  /**
   * `is_complex`: a container shape, or a model, dataclass, list, set or dict
   * type. Of the types of values, exactly `list`, `set` and `dict` are complex:
   * `tuple` and `frozenset` are not subclasses of them.
   */
  function IsComplex(d: FieldDesc): (r: bool)
    ensures d.shape != Singleton ==> r
    ensures forall v :: d.shape == Singleton && d.typ == TypeOf(v) ==>
              (r <==> v.Dict? || (v.Coll? && (v.kind == ListKind || v.kind == SetKind)))
  {
    d.shape != Singleton || (d.typ.Class? && d.typ.complex)
  }
}
