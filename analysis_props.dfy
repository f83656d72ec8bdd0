/**
 * What field preparation guarantees, proved over the functions of `Analysis`:
 * the slots it never changes, the only error type analysis raises, the
 * sub-fields it builds for unions, tuples and containers, and the validator
 * chains `_populate_validators` assembles.
 */
module AnalysisProperties {

  import opened Wrappers
  import opened Values
  import opened TypeDescriptors
  import opened Analysis

  /**
   * Type analysis never renames a field, never touches its `validate_always`
   * flag or its validator chains, and only ever makes it less required, more
   * accepting of `None`, or JSON-parsing.
   */
  predicate Keeps(d: FieldDesc, r: FieldDesc) {
    r.name == d.name && r.validateAlways == d.validateAlways
    && (d.allowNone ==> r.allowNone) && (r.required ==> d.required) && (d.parseJson ==> r.parseJson)
    && r.validators == d.validators && r.preValidators == d.preValidators && r.postValidators == d.postValidators
  }

  // ------------------------------------------------------------ the analysis family

  /**
   * Preparing a field keeps its name; when a type is given (or inferred),
   * the only error is an unsupported generic origin.
   */
  lemma {:induction false} PrepareOk(cfg: Config, name: string, typ: Option<Type>, cvs: seq<NamedValidator>,
                                     default: Value, required: bool, isConst: bool)
    ensures var r := Prepare(cfg, name, typ, cvs, default, required, isConst);
            (r.Success? ==> r.value.name == name)
            && (r.Failure? && InferType(typ, default).Some? ==> r.error.UnsupportedType?)
    decreases PrepareSize(typ, default), 5
  {
    var t := InferType(typ, default);
    if t.Some? && !t.value.ForwardRef? {
      var d := Initial(name, t.value, cvs, required).(
        validateAlways := ValidateAlwaysAttr(t.value) || AnyAlways(cvs),
        allowNone := !required && default == NoneV);
      AnalyseOk(cfg, d);
    }
  }

  /** A `ConfigError` arises exactly when there is neither a type nor a default to infer one from. */
  lemma PrepareUntyped(cfg: Config, name: string, typ: Option<Type>, cvs: seq<NamedValidator>,
                       default: Value, required: bool, isConst: bool)
    ensures var r := Prepare(cfg, name, typ, cvs, default, required, isConst);
            (r.Failure? && r.error.ConfigError?) <==> InferType(typ, default).None?
    ensures InferType(typ, default).None? <==> typ.None? && default == NoneV
    ensures InferType(typ, default).None? ==>
              Prepare(cfg, name, typ, cvs, default, required, isConst)
              == Failure(ConfigError("unable to infer type for attribute \"" + name + "\""))
  {
    PrepareOk(cfg, name, typ, cvs, default, required, isConst);
  }

  /**
   * Preparing several sub-fields prepares each type under its name, in order,
   * succeeding exactly when every one does; a failure is that of the first
   * type that fails, and comes only from an unsupported origin.
   */
  lemma {:induction false} PrepareAllOk(cfg: Config, ts: seq<Type>, names: seq<string>, cvs: seq<NamedValidator>)
    requires |names| == |ts|
    ensures var r := PrepareAll(cfg, ts, names, cvs);
            r.Success? <==> forall j :: 0 <= j < |ts| ==> Prepare(cfg, names[j], Some(ts[j]), cvs, NoneV, true, false).Success?
    ensures var r := PrepareAll(cfg, ts, names, cvs);
            r.Success? ==> forall j :: 0 <= j < |ts| ==>
              Prepare(cfg, names[j], Some(ts[j]), cvs, NoneV, true, false) == Success(r.value[j])
              && r.value[j].name == names[j]
    ensures var r := PrepareAll(cfg, ts, names, cvs);
            r.Failure? ==>
              exists j :: 0 <= j < |ts|
                && (forall i :: 0 <= i < j ==> Prepare(cfg, names[i], Some(ts[i]), cvs, NoneV, true, false).Success?)
                && Prepare(cfg, names[j], Some(ts[j]), cvs, NoneV, true, false) == Failure(r.error)
    ensures var r := PrepareAll(cfg, ts, names, cvs);
            r.Failure? ==> r.error.UnsupportedType?
    decreases SizeAll(ts), 6
  {
    if ts != [] {
      PrepareOk(cfg, names[0], Some(ts[0]), cvs, NoneV, true, false);
      PrepareAllOk(cfg, ts[1..], names[1..], cvs);
      PrepareAllStepSuccess(cfg, ts, names, cvs);
      PrepareAllStepFailure(cfg, ts, names, cvs);
    }
  }

  /** The success clauses of `PrepareAllOk` for `ts`, from those for its tail. */
  lemma PrepareAllStepSuccess(cfg: Config, ts: seq<Type>, names: seq<string>, cvs: seq<NamedValidator>)
    requires |names| == |ts| && ts != []
    requires var p := Prepare(cfg, names[0], Some(ts[0]), cvs, NoneV, true, false);
             p.Success? ==> p.value.name == names[0]
    requires var rest := PrepareAll(cfg, ts[1..], names[1..], cvs);
             rest.Success? <==> forall j :: 0 <= j < |ts| - 1 ==>
               Prepare(cfg, names[1..][j], Some(ts[1..][j]), cvs, NoneV, true, false).Success?
    requires var rest := PrepareAll(cfg, ts[1..], names[1..], cvs);
             rest.Success? ==> forall j :: 0 <= j < |ts| - 1 ==>
               Prepare(cfg, names[1..][j], Some(ts[1..][j]), cvs, NoneV, true, false) == Success(rest.value[j])
               && rest.value[j].name == names[1..][j]
    ensures var r := PrepareAll(cfg, ts, names, cvs);
            r.Success? <==> forall j :: 0 <= j < |ts| ==> Prepare(cfg, names[j], Some(ts[j]), cvs, NoneV, true, false).Success?
    ensures var r := PrepareAll(cfg, ts, names, cvs);
            r.Success? ==> forall j :: 0 <= j < |ts| ==>
              Prepare(cfg, names[j], Some(ts[j]), cvs, NoneV, true, false) == Success(r.value[j])
              && r.value[j].name == names[j]
  {
    var r := PrepareAll(cfg, ts, names, cvs);
    var p := Prepare(cfg, names[0], Some(ts[0]), cvs, NoneV, true, false);
    var rest := PrepareAll(cfg, ts[1..], names[1..], cvs);
    assert r == Joined(p, rest);
    if forall j :: 0 <= j < |ts| ==> Prepare(cfg, names[j], Some(ts[j]), cvs, NoneV, true, false).Success? {
      assert p.Success? by { assert Prepare(cfg, names[0], Some(ts[0]), cvs, NoneV, true, false).Success?; }
      forall j | 0 <= j < |ts| - 1
        ensures Prepare(cfg, names[1..][j], Some(ts[1..][j]), cvs, NoneV, true, false).Success?
      {
        assert names[1..][j] == names[j + 1] && ts[1..][j] == ts[j + 1];
      }
    }
    if r.Success? {
      assert r.value == [p.value] + rest.value;
      forall j | 0 <= j < |ts|
        ensures Prepare(cfg, names[j], Some(ts[j]), cvs, NoneV, true, false) == Success(r.value[j])
                && r.value[j].name == names[j]
      {
        if j > 0 {
          assert names[1..][j - 1] == names[j] && ts[1..][j - 1] == ts[j] && r.value[j] == rest.value[j - 1];
        }
      }
    }
  }

  /** The failure clauses of `PrepareAllOk` for `ts`, from those for its tail. */
  lemma PrepareAllStepFailure(cfg: Config, ts: seq<Type>, names: seq<string>, cvs: seq<NamedValidator>)
    requires |names| == |ts| && ts != []
    requires var p := Prepare(cfg, names[0], Some(ts[0]), cvs, NoneV, true, false);
             p.Failure? ==> p.error.UnsupportedType?
    requires var rest := PrepareAll(cfg, ts[1..], names[1..], cvs);
             rest.Failure? ==>
               exists j :: 0 <= j < |ts| - 1
                 && (forall i :: 0 <= i < j ==> Prepare(cfg, names[1..][i], Some(ts[1..][i]), cvs, NoneV, true, false).Success?)
                 && Prepare(cfg, names[1..][j], Some(ts[1..][j]), cvs, NoneV, true, false) == Failure(rest.error)
    requires var rest := PrepareAll(cfg, ts[1..], names[1..], cvs);
             rest.Failure? ==> rest.error.UnsupportedType?
    ensures var r := PrepareAll(cfg, ts, names, cvs);
            r.Failure? ==>
              exists j :: 0 <= j < |ts|
                && (forall i :: 0 <= i < j ==> Prepare(cfg, names[i], Some(ts[i]), cvs, NoneV, true, false).Success?)
                && Prepare(cfg, names[j], Some(ts[j]), cvs, NoneV, true, false) == Failure(r.error)
    ensures var r := PrepareAll(cfg, ts, names, cvs);
            r.Failure? ==> r.error.UnsupportedType?
  {
    var r := PrepareAll(cfg, ts, names, cvs);
    var p := Prepare(cfg, names[0], Some(ts[0]), cvs, NoneV, true, false);
    var rest := PrepareAll(cfg, ts[1..], names[1..], cvs);
    assert r == Joined(p, rest);
    if r.Failure? {
      if p.Failure? {
        assert 0 < |ts| && Prepare(cfg, names[0], Some(ts[0]), cvs, NoneV, true, false) == Failure(r.error);
      } else {
        var j :| 0 <= j < |ts| - 1
                 && (forall i :: 0 <= i < j ==> Prepare(cfg, names[1..][i], Some(ts[1..][i]), cvs, NoneV, true, false).Success?)
                 && Prepare(cfg, names[1..][j], Some(ts[1..][j]), cvs, NoneV, true, false) == Failure(rest.error);
        assert names[1..][j] == names[j + 1] && ts[1..][j] == ts[j + 1];
        forall i | 0 <= i < j + 1
          ensures Prepare(cfg, names[i], Some(ts[i]), cvs, NoneV, true, false).Success?
        {
          if i > 0 {
            assert names[1..][i - 1] == names[i] && ts[1..][i - 1] == ts[i];
          }
        }
      }
    }
  }

  /** `_type_analysis` keeps what `Keeps` says and fails only on an unsupported origin. */
  lemma {:induction false} AnalyseOk(cfg: Config, d: FieldDesc)
    ensures var r := Analyse(cfg, d);
            (r.Success? ==> Keeps(d, r.value)) && (r.Failure? ==> r.error.UnsupportedType?)
    decreases Size(d.typ), 4
  {
    AnalyseUnwrappedOk(cfg, UnwrapJson(d));
  }

  lemma {:induction false} AnalyseUnwrappedOk(cfg: Config, d: FieldDesc)
    ensures var r := AnalyseUnwrapped(cfg, d);
            (r.Success? ==> Keeps(d, r.value)) && (r.Failure? ==> r.error.UnsupportedType?)
    decreases Size(d.typ), 3
  {
    if d.typ.ListT? || d.typ.SetT? || d.typ.FrozenSetT? || d.typ.SequenceT? || d.typ.MappingT? {
      AnalyseContainerOk(cfg, d);
    } else if d.typ.Literal? {
      LiteralOk(cfg, d);
    } else {
      GenericOk(cfg, d);
    }
  }

  /** The union and tuple branches, and the types analysis leaves alone. */
  lemma {:induction false} GenericOk(cfg: Config, d: FieldDesc)
    requires !(d.typ.ListT? || d.typ.SetT? || d.typ.FrozenSetT? || d.typ.SequenceT? || d.typ.MappingT? || d.typ.Literal?)
    ensures var r := AnalyseUnwrapped(cfg, d);
            (r.Success? ==> Keeps(d, r.value)) && (r.Failure? ==> r.error.UnsupportedType?)
    decreases Size(d.typ), 2
  {
    match d.typ
    case Union(args) => AnalyseUnionOk(cfg, d, args);
    case Tuple(args) => AnalyseTupleOk(cfg, d, args);
    case _ =>
  }

  /** A literal of several values is analysed as the union of one literal per value. */
  lemma {:induction false} LiteralOk(cfg: Config, d: FieldDesc)
    requires d.typ.Literal?
    ensures var r := AnalyseUnwrapped(cfg, d);
            (r.Success? ==> Keeps(d, r.value)) && (r.Failure? ==> r.error.UnsupportedType?)
    decreases Size(d.typ), 2
  {
    var vs := d.typ.values;
    if |vs| > 1 {
      var members := LiteralMembers(vs);
      LiteralSize(vs);
      assert AnalyseUnwrapped(cfg, d) == AnalyseUnion(cfg, d.(typ := Union(members)), members);
      AnalyseUnionOk(cfg, d.(typ := Union(members)), members);
    }
  }

  lemma {:induction false} AnalyseUnionOk(cfg: Config, d: FieldDesc, args: seq<Type>)
    ensures var r := AnalyseUnion(cfg, d, args);
            (r.Success? ==> Keeps(d, r.value)) && (r.Failure? ==> r.error.UnsupportedType?)
    decreases 1 + SizeAll(args), 1
  {
    var members := NonNone(args);
    var d' := if NoneType in args then d.(required := false, allowNone := true) else d;
    if |members| == 1 {
      SizeMember(members, 0);
      AnalyseOk(cfg, d'.(typ := members[0]));
    } else {
      PrepareAllOk(cfg, members, UnionNames(cfg, d.name, members), EachItem(d.classValidators));
    }
  }

  lemma {:induction false} AnalyseTupleOk(cfg: Config, d: FieldDesc, args: seq<Type>)
    ensures var r := AnalyseTuple(cfg, d, args);
            (r.Success? ==> Keeps(d, r.value)) && (r.Failure? ==> r.error.UnsupportedType?)
    decreases 1 + SizeAll(args), 1
  {
    var cvs := EachItem(d.classValidators);
    var p := PositionFields(cfg, args, d.name, cvs, 0);
    assert args[0..] == args;
    PositionFieldsOk(cfg, args, d.name, cvs, 0);
    if p.Success? {
      var s := if Ellipsis in args then TupleEllipsisShape else TupleShape;
      var t := if Ellipsis in args then args[0] else d.typ;
      assert AnalyseTuple(cfg, d, args) == Success(d.(shape := s, subFields := p.value, typ := t));
      KeepsRefined(d, s, p.value, t);
    }
  }

  /** Changing only the shape, the sub-fields and the type keeps a field's slots. */
  lemma KeepsRefined(d: FieldDesc, s: Shape, subs: seq<FieldDesc>, t: Type)
    ensures Keeps(d, d.(shape := s, subFields := subs, typ := t))
  {
  }

  lemma {:induction false} AnalyseContainerOk(cfg: Config, d: FieldDesc)
    ensures var r := AnalyseContainer(cfg, d);
            (r.Success? ==> Keeps(d, r.value)) && (r.Failure? ==> r.error.UnsupportedType?)
    decreases Size(d.typ), 1
  {
    match d.typ
    case ListT(elem, own) =>
      RefinedOk(cfg, d, d.(classValidators := AddListValidators(d.classValidators, own, |own|), typ := elem, shape := ListShape));
    case MappingT(key, value) => AnalyseMappingOk(cfg, d, key, value);
    case _ => CollectionOk(cfg, d);
  }

  /** The set, frozenset and sequence branches. */
  lemma CollectionOk(cfg: Config, d: FieldDesc)
    requires !d.typ.ListT? && !d.typ.MappingT?
    ensures var r := AnalyseContainer(cfg, d);
            (r.Success? ==> Keeps(d, r.value)) && (r.Failure? ==> r.error.UnsupportedType?)
    decreases Size(d.typ), 0
  {
    if d.typ.SetT? || d.typ.FrozenSetT? || d.typ.SequenceT? {
      var s := if d.typ.SetT? then SetShape else if d.typ.FrozenSetT? then FrozenSetShape else SequenceShape;
      var d' := d.(shape := s, subFields := d.subFields, typ := d.typ.elem);
      assert AnalyseContainer(cfg, d) == WithElement(cfg, d');
      KeepsRefined(d, s, d.subFields, d.typ.elem);
      RefinedOk(cfg, d, d');
    }
  }

  /** `WithElementOk` for a descriptor `d'` refined from `d` by a container branch. */
  lemma RefinedOk(cfg: Config, d: FieldDesc, d': FieldDesc)
    requires Keeps(d, d')
    requires Size(d'.typ) < Size(d.typ)
    ensures var r := WithElement(cfg, d');
            (r.Success? ==> Keeps(d, r.value)) && (r.Failure? ==> r.error.UnsupportedType?)
    decreases Size(d'.typ), 7
  {
    WithElementOk(cfg, d');
  }

  /** The element sub-field is named `_{name}`; only its own preparation can fail. */
  lemma {:induction false} WithElementOk(cfg: Config, d: FieldDesc)
    ensures var r := WithElement(cfg, d);
            (r.Success? ==> Keeps(d, r.value) && r.value.typ == d.typ && r.value.shape == d.shape
                            && r.value.keyField == d.keyField && r.value.classValidators == d.classValidators
                            && |r.value.subFields| == 1 && r.value.subFields[0].name == "_" + d.name)
            && (r.Failure? ==> r.error.UnsupportedType?)
    decreases Size(d.typ), 6
  {
    PrepareOk(cfg, "_" + d.name, Some(d.typ), EachItem(d.classValidators), NoneV, true, false);
  }

  /** The mapping branch fails only on an unsupported origin. */
  lemma {:induction false} AnalyseMappingOk(cfg: Config, d: FieldDesc, key: Type, value: Type)
    ensures var r := AnalyseMapping(cfg, d, key, value);
            (r.Success? ==> Keeps(d, r.value)) && (r.Failure? ==> r.error.UnsupportedType?)
    decreases Size(key) + Size(value), 7
  {
    PrepareOk(cfg, "key_" + d.name, Some(key), [], NoneV, true, false);
    var kr := Prepare(cfg, "key_" + d.name, Some(key), [], NoneV, true, false);
    if kr.Success? {
      var d' := d.(keyField := Some(kr.value), typ := value, shape := MappingShape);
      assert AnalyseMapping(cfg, d, key, value) == WithElement(cfg, d');
      WithElementOk(cfg, d');
    }
  }

  /** A mapping field validates its values as `value`, with a key field `key_{name}` and an element sub-field `_{name}`. */
  lemma MappingFields(cfg: Config, d: FieldDesc, key: Type, value: Type)
    ensures var r := AnalyseMapping(cfg, d, key, value);
            r.Success? ==> r.value.shape == MappingShape && r.value.typ == value
                           && r.value.keyField.Some? && r.value.keyField.value.name == "key_" + d.name
                           && |r.value.subFields| == 1 && r.value.subFields[0].name == "_" + d.name
  {
    PrepareOk(cfg, "key_" + d.name, Some(key), [], NoneV, true, false);
    var kr := Prepare(cfg, "key_" + d.name, Some(key), [], NoneV, true, false);
    if kr.Success? {
      WithElementOk(cfg, d.(keyField := Some(kr.value), typ := value, shape := MappingShape));
    }
  }

  /**
   * The positions of a tuple from `i` up to the first `Ellipsis` become
   * sub-fields `{name}_{i}`, `{name}_{i+1}`, ...; only their own preparation
   * can fail.
   */
  lemma {:induction false} PositionFieldsOk(cfg: Config, args: seq<Type>, name: string, cvs: seq<NamedValidator>, i: nat)
    requires i <= |args|
    ensures var r := PositionFields(cfg, args, name, cvs, i);
            (r.Success? ==> Names(r.value) == PositionNames(name, i, FirstEllipsis(args[i..])))
            && (r.Failure? ==> r.error.UnsupportedType?)
    decreases SizeAll(args[i..]), 6
  {
    FirstEllipsisStep(args, i);
    if i < |args| && args[i] != Ellipsis {
      var f := Prepare(cfg, name + "_" + NatToString(i), Some(args[i]), cvs, NoneV, true, false);
      var rest := PositionFields(cfg, args, name, cvs, i + 1);
      PrepareOk(cfg, name + "_" + NatToString(i), Some(args[i]), cvs, NoneV, true, false);
      PositionFieldsOk(cfg, args, name, cvs, i + 1);
      if f.Success? && rest.Success? {
        assert PositionFields(cfg, args, name, cvs, i) == Success([f.value] + rest.value);
        assert ([f.value] + rest.value)[1..] == rest.value;
      }
    }
  }

  /**
   * The position loop from `i` is `PrepareAll` over the `n` positions before
   * the next `Ellipsis` (or the end), the one at position `k` named `{name}_{k}`.
   */
  lemma {:induction false} PositionFieldsRun(cfg: Config, args: seq<Type>, name: string, cvs: seq<NamedValidator>,
                                             i: nat, n: nat)
    requires i + n <= |args|
    requires forall k :: i <= k < i + n ==> args[k] != Ellipsis
    requires i + n == |args| || args[i + n] == Ellipsis
    ensures PositionFields(cfg, args, name, cvs, i) == PrepareAll(cfg, args[i..i + n], PositionNames(name, i, n), cvs)
    decreases n
  {
    if n == 0 {
      assert args[i..i] == [];
    } else {
      var nm := name + "_" + NatToString(i);
      var rest := args[i + 1..i + 1 + (n - 1)];
      var restNames := PositionNames(name, i + 1, n - 1);
      PositionFieldsRun(cfg, args, name, cvs, i + 1, n - 1);
      SliceCons(args, i, n);
      assert PositionNames(name, i, n) == [nm] + restNames;
      PositionFieldsJoined(cfg, args, name, cvs, i);
      PrepareAllCons(cfg, args[i], rest, nm, restNames, cvs);
    }
  }

  lemma PositionFieldsJoined(cfg: Config, args: seq<Type>, name: string, cvs: seq<NamedValidator>, i: nat)
    requires i < |args| && args[i] != Ellipsis
    ensures PositionFields(cfg, args, name, cvs, i)
            == Joined(Prepare(cfg, name + "_" + NatToString(i), Some(args[i]), cvs, NoneV, true, false),
                      PositionFields(cfg, args, name, cvs, i + 1))
  {
  }

  /** One prepared sub-field in front of the rest, or the first failure. */
  function Joined(p: Result<FieldDesc, SetupError>, rest: Result<seq<FieldDesc>, SetupError>): Result<seq<FieldDesc>, SetupError> {
    match p
    case Failure(e) => Failure(e)
    case Success(f) => Prefixed([f], rest)
  }

  /** A non-empty slice is its first element followed by the rest. */
  lemma SliceCons<T>(s: seq<T>, i: nat, n: nat)
    requires 0 < n && i + n <= |s|
    ensures s[i..i + n] == [s[i]] + s[i + 1..i + 1 + (n - 1)]
  {
  }

  lemma PrepareAllCons(cfg: Config, t: Type, ts: seq<Type>, nm: string, names: seq<string>, cvs: seq<NamedValidator>)
    requires |names| == |ts|
    ensures PrepareAll(cfg, [t] + ts, [nm] + names, cvs)
            == Joined(Prepare(cfg, nm, Some(t), cvs, NoneV, true, false), PrepareAll(cfg, ts, names, cvs))
  {
    assert ([t] + ts)[0] == t && ([t] + ts)[1..] == ts;
    assert ([nm] + names)[0] == nm && ([nm] + names)[1..] == names;
  }

  /** The names of a sequence of fields. */
  function Names(ds: seq<FieldDesc>): (r: seq<string>)
    ensures |r| == |ds|
  {
    if ds == [] then [] else [ds[0].name] + Names(ds[1..])
  }

  /** `{name}_{i}`, `{name}_{i+1}`, ... for `n` positions. */
  function PositionNames(name: string, i: nat, n: nat): (r: seq<string>)
    ensures |r| == n
    decreases n
  {
    if n == 0 then [] else [name + "_" + NatToString(i)] + PositionNames(name, i + 1, n - 1)
  }

  lemma {:induction false} NamesAt(ds: seq<FieldDesc>)
    ensures forall j :: 0 <= j < |ds| ==> Names(ds)[j] == ds[j].name
  {
    if ds != [] {
      NamesAt(ds[1..]);
    }
  }

  lemma {:induction false} PositionNamesAt(name: string, i: nat, n: nat)
    ensures forall j :: 0 <= j < n ==> PositionNames(name, i, n)[j] == name + "_" + NatToString(i + j)
    decreases n
  {
    if n > 0 {
      PositionNamesAt(name, i + 1, n - 1);
      forall j | 0 < j < n
        ensures PositionNames(name, i, n)[j] == name + "_" + NatToString(i + j)
      {
        assert i + 1 + (j - 1) == i + j;
      }
    }
  }

  /** `FirstEllipsis` of the arguments from `i` on, one position at a time. */
  lemma FirstEllipsisStep(args: seq<Type>, i: nat)
    requires i <= |args|
    ensures i == |args| || args[i] == Ellipsis ==> FirstEllipsis(args[i..]) == 0
    ensures i < |args| && args[i] != Ellipsis ==> FirstEllipsis(args[i..]) == 1 + FirstEllipsis(args[i + 1..])
    ensures i < |args| ==> SizeAll(args[i..]) == Size(args[i]) + SizeAll(args[i + 1..])
  {
    if i < |args| {
      assert args[i..][0] == args[i];
      assert args[i..][1..] == args[i + 1..];
    }
  }

  // ------------------------------------------------------------ shapes and sub-fields

  /** `FirstEllipsis` reaches the end exactly when there is no `Ellipsis`. */
  lemma {:induction false} FirstEllipsisEnd(args: seq<Type>)
    ensures FirstEllipsis(args) == |args| <==> Ellipsis !in args
  {
    if args != [] && args[0] != Ellipsis {
      FirstEllipsisEnd(args[1..]);
      assert args == [args[0]] + args[1..];
    }
  }

  /** A tuple gets one sub-field `{name}_{i}` per position before the first `Ellipsis`. */
  lemma TupleFields(cfg: Config, d: FieldDesc, args: seq<Type>)
    ensures var r := AnalyseTuple(cfg, d, args);
            r.Success? ==>
              |r.value.subFields| == FirstEllipsis(args)
              && (forall j :: 0 <= j < |r.value.subFields| ==> r.value.subFields[j].name == d.name + "_" + NatToString(j))
              && |r.value.subFields| <= |args|
              && (forall j :: 0 <= j < |r.value.subFields| ==>
                    Prepare(cfg, d.name + "_" + NatToString(j), Some(args[j]), EachItem(d.classValidators), NoneV, true, false)
                    == Success(r.value.subFields[j]))
  {
    var cvs := EachItem(d.classValidators);
    TupleSubFields(cfg, d, args);
    PositionNamesFrom(cfg, args, d.name, cvs);
    var n := FirstEllipsis(args);
    PositionFieldsRun(cfg, args, d.name, cvs, 0, n);
    assert args[0..0 + n] == args[..n];
    PrepareAllOk(cfg, args[..n], PositionNames(d.name, 0, n), cvs);
    PositionNamesAt(d.name, 0, n);
  }

  /** The sub-fields of a tuple are those of its positions up to the first `Ellipsis`. */
  lemma TupleSubFields(cfg: Config, d: FieldDesc, args: seq<Type>)
    ensures var r := AnalyseTuple(cfg, d, args);
            r.Success? ==> PositionFields(cfg, args, d.name, EachItem(d.classValidators), 0) == Success(r.value.subFields)
  {
    assert args[0..] == args;
  }

  /** The position sub-fields, counted and named from position 0. */
  lemma PositionNamesFrom(cfg: Config, args: seq<Type>, name: string, cvs: seq<NamedValidator>)
    ensures var p := PositionFields(cfg, args, name, cvs, 0);
            p.Success? ==>
              |p.value| == FirstEllipsis(args)
              && forall j :: 0 <= j < |p.value| ==> p.value[j].name == name + "_" + NatToString(j)
  {
    var p := PositionFields(cfg, args, name, cvs, 0);
    assert args[0..] == args;
    PositionFieldsOk(cfg, args, name, cvs, 0);
    if p.Success? {
      NamesAt(p.value);
      PositionNamesAt(name, 0, FirstEllipsis(args));
    }
  }

  /** A tuple without `Ellipsis` keeps its type and gets one sub-field per argument; with one, it takes the first argument's type. */
  lemma TupleShapes(cfg: Config, d: FieldDesc, args: seq<Type>)
    ensures var r := AnalyseTuple(cfg, d, args);
            r.Success? ==>
              (Ellipsis !in args ==> r.value.shape == TupleShape && |r.value.subFields| == |args| && r.value.typ == d.typ)
              && (Ellipsis in args ==> r.value.shape == TupleEllipsisShape && r.value.typ == args[0])
  {
    var cvs := EachItem(d.classValidators);
    TupleSubFields(cfg, d, args);
    PositionNamesFrom(cfg, args, d.name, cvs);
    FirstEllipsisEnd(args);
  }

  lemma VariadicTuple(cfg: Config, d: FieldDesc, t: Type)
    requires d.typ == Tuple([t, Ellipsis]) && t != Ellipsis
    ensures var r := Analyse(cfg, d);
            r.Success? ==>
              r.value.shape == TupleEllipsisShape && r.value.typ == t
              && |r.value.subFields| == 1 && r.value.subFields[0].name == d.name + "_0"
  {
    TupleFields(cfg, d, [t, Ellipsis]);
    assert [t, Ellipsis][1..] == [Ellipsis];
    assert NatToString(0) == "0";
  }

  /**
   * A union with other than exactly one non-`None` member gets one sub-field
   * per such member, named `{name}_{display_as_type(member)}`, in order; a
   * `NoneType` member makes it optional and not required.
   */
  lemma UnionFields(cfg: Config, d: FieldDesc, args: seq<Type>)
    requires |NonNone(args)| != 1
    ensures var r := AnalyseUnion(cfg, d, args);
            var members := NonNone(args);
            r.Success? ==>
              r.value.typ == d.typ && r.value.shape == d.shape
              && r.value.allowNone == (d.allowNone || NoneType in args)
              && r.value.required == (d.required && NoneType !in args)
              && |r.value.subFields| == |members|
              && (forall j :: 0 <= j < |members| ==>
                    r.value.subFields[j].name == d.name + "_" + cfg.displayAsType(members[j]))
              && (forall j :: 0 <= j < |members| ==>
                    Prepare(cfg, d.name + "_" + cfg.displayAsType(members[j]), Some(members[j]),
                            EachItem(d.classValidators), NoneV, true, false)
                    == Success(r.value.subFields[j]))
  {
    var members := NonNone(args);
    PrepareAllOk(cfg, members, UnionNames(cfg, d.name, members), EachItem(d.classValidators));
    UnionNamesAt(cfg, d.name, members);
  }

  lemma {:induction false} UnionNamesAt(cfg: Config, name: string, ts: seq<Type>)
    ensures forall j :: 0 <= j < |ts| ==> UnionNames(cfg, name, ts)[j] == name + "_" + cfg.displayAsType(ts[j])
  {
    if ts != [] {
      UnionNamesAt(cfg, name, ts[1..]);
    }
  }

  /**
   * `Optional[T]` is `T` with `required=False`: a field declared
   * `Optional[T]` and required is prepared exactly like a field of type `T`
   * declared not required with a `None` default, unless `T` carries
   * `validate_always` (read from the union, where it is absent) or is a
   * forward reference (left unprepared only when it is the declared type).
   */
  lemma OptionalIsNotRequired(cfg: Config, name: string, t: Type, cvs: seq<NamedValidator>, isConst: bool)
    requires t != NoneType && !t.ForwardRef? && !ValidateAlwaysAttr(t)
    ensures Prepare(cfg, name, Some(Union([t, NoneType])), cvs, NoneV, true, isConst)
            == Prepare(cfg, name, Some(t), cvs, NoneV, false, isConst)
  {
    var u := Initial(name, Union([t, NoneType]), cvs, true).(validateAlways := AnyAlways(cvs), allowNone := false);
    OptionalAnalysis(cfg, u, t);
  }

  /** `_type_analysis` of `Optional[T]`: the field becomes optional and is analysed as `T`. */
  lemma OptionalAnalysis(cfg: Config, u: FieldDesc, t: Type)
    requires u.typ == Union([t, NoneType]) && t != NoneType
    ensures Analyse(cfg, u) == Analyse(cfg, u.(required := false, allowNone := true, typ := t))
  {
    assert NonNone([t, NoneType]) == [t] by {
      assert [t, NoneType][1..] == [NoneType];
      assert [NoneType][1..] == [];
    }
    assert AnalyseUnwrapped(cfg, u) == AnalyseUnion(cfg, u, [t, NoneType]);
  }

  /**
   * The container types: the field takes the element type (for a mapping,
   * the value type), the matching shape, and one element sub-field `_{name}`;
   * such a field is complex.
   */
  lemma Containers(cfg: Config, d: FieldDesc)
    requires d.typ.ListT? || d.typ.SetT? || d.typ.FrozenSetT? || d.typ.SequenceT? || d.typ.MappingT?
    ensures var r := Analyse(cfg, d);
            r.Success? ==>
              IsComplex(r.value)
              && r.value.shape == (match d.typ
                                   case ListT(_, _) => ListShape
                                   case SetT(_) => SetShape
                                   case FrozenSetT(_) => FrozenSetShape
                                   case SequenceT(_) => SequenceShape
                                   case _ => MappingShape)
              && r.value.typ == (if d.typ.MappingT? then d.typ.value else d.typ.elem)
              && |r.value.subFields| == 1 && r.value.subFields[0].name == "_" + d.name
  {
    assert Analyse(cfg, d) == AnalyseContainer(cfg, d);
    match d.typ
    case ListT(elem, own) =>
      WithElementOk(cfg, d.(classValidators := AddListValidators(d.classValidators, own, |own|), typ := elem, shape := ListShape));
    case SetT(elem) => WithElementOk(cfg, d.(typ := elem, shape := SetShape));
    case FrozenSetT(elem) => WithElementOk(cfg, d.(typ := elem, shape := FrozenSetShape));
    case SequenceT(elem) => WithElementOk(cfg, d.(typ := elem, shape := SequenceShape));
    case MappingT(key, value) => MappingFields(cfg, d, key, value);
  }

  /** A generic whose origin the classifier does not know is refused, naming the origin. */
  lemma UnsupportedOrigin(cfg: Config, name: string, origin: string, args: seq<Type>, cvs: seq<NamedValidator>,
                          default: Value, required: bool, isConst: bool)
    ensures Prepare(cfg, name, Some(Unsupported(origin, args)), cvs, default, required, isConst)
            == Failure(UnsupportedType(origin))
  {
    var d := Initial(name, Unsupported(origin, args), cvs, required).(
      validateAlways := AnyAlways(cvs), allowNone := !required && default == NoneV);
    assert Analyse(cfg, d) == Failure(UnsupportedType(origin));
  }

  /** A field of type `NoneType` is left out of the schema. */
  lemma NoneFieldNotInSchema(cfg: Config, name: string, cvs: seq<NamedValidator>, required: bool, isConst: bool)
    ensures var r := Prepare(cfg, name, Some(NoneType), cvs, NoneV, required, isConst);
            r.Success? && !IncludeInSchema(r.value)
  {
  }

  /**
   * A field whose type is inferred from a default other than `None` is a
   * singleton of the default's class: it is in the schema, and complex exactly
   * when the default is a list, a set or a dict.
   */
  lemma InferredFieldKinds(cfg: Config, name: string, cvs: seq<NamedValidator>, v: Value, required: bool, isConst: bool)
    requires v != NoneV
    ensures var r := Prepare(cfg, name, None, cvs, v, required, isConst);
            r.Success? && r.value.typ == TypeOf(v) && r.value.shape == Singleton
            && IncludeInSchema(r.value)
            && (IsComplex(r.value) <==> v.Dict? || (v.Coll? && (v.kind == ListKind || v.kind == SetKind)))
  {
    var t := TypeOf(v);
    assert InferType(None, v) == Some(t);
    var d := Initial(name, t, cvs, required).(validateAlways := ValidateAlwaysAttr(t) || AnyAlways(cvs),
                                             allowNone := false);
    assert Analyse(cfg, d) == AnalyseUnwrapped(cfg, d) == Success(d);
    assert Prepare(cfg, name, None, cvs, v, required, isConst) == Success(Populate(cfg, d, isConst));
  }

  /**
   * `Optional[C]` for a plain class `C` is analysed as `C`: the field allows
   * `None` but, unlike a `NoneType` field, is in the schema.
   */
  lemma OptionalInSchema(cfg: Config, name: string, c: Type, cvs: seq<NamedValidator>, isConst: bool)
    requires c.Class? && !c.validateAlways
    ensures var r := Prepare(cfg, name, Some(Union([c, NoneType])), cvs, NoneV, true, isConst);
            r.Success? && r.value.typ == c && r.value.allowNone && IncludeInSchema(r.value)
            && (IsComplex(r.value) <==> c.complex)
  {
    OptionalIsNotRequired(cfg, name, c, cvs, isConst);
    var d := Initial(name, c, cvs, false).(validateAlways := AnyAlways(cvs), allowNone := true);
    assert Analyse(cfg, d) == AnalyseUnwrapped(cfg, d) == Success(d);
    assert Prepare(cfg, name, Some(c), cvs, NoneV, false, isConst) == Success(Populate(cfg, d, isConst));
  }

  /**
   * As written, `include_in_schema` reads the refined type: a `List[None]`
   * field takes its element type `NoneType` and is left out of the schema,
   * although it is a list field and complex.
   */
  lemma ListOfNoneNotInSchema(cfg: Config, name: string, required: bool, isConst: bool)
    ensures var r := Prepare(cfg, name, Some(ListT(NoneType, [])), [], NoneV, required, isConst);
            r.Success? && r.value.shape == ListShape && !IncludeInSchema(r.value) && IsComplex(r.value)
  {
    var t := ListT(NoneType, []);
    var d := Initial(name, t, [], required).(validateAlways := ValidateAlwaysAttr(t) || AnyAlways([]),
                                             allowNone := !required);
    assert AddListValidators([], [], 0) == [];
    Containers(cfg, d);
    NoneFieldNotInSchema(cfg, "_" + name, [], true, false);
    assert AnalyseContainer(cfg, d).Success?;
  }

  // ------------------------------------------------------------ constrained lists

  lemma {:induction false} NatToStringLength(n: nat)
    ensures n >= 10 ==> |NatToString(n)| >= 2
    ensures |NatToString(n)| >= 1
  {
  }

  /** Distinct positions get distinct names. */
  lemma {:induction false} NatToStringInjective(a: nat, b: nat)
    ensures NatToString(a) == NatToString(b) ==> a == b
    decreases a
  {
    if NatToString(a) == NatToString(b) {
      NatToStringLength(a);
      NatToStringLength(b);
      if a < 10 && b < 10 {
        assert NatToString(a)[0] == DigitChar(a) && NatToString(b)[0] == DigitChar(b);
      } else if a >= 10 && b >= 10 {
        var sa, sb := NatToString(a), NatToString(b);
        assert sa[|sa| - 1] == DigitChar(a % 10) && sb[|sb| - 1] == DigitChar(b % 10);
        assert sa[..|sa| - 1] == NatToString(a / 10) && sb[..|sb| - 1] == NatToString(b / 10);
        NatToStringInjective(a / 10, b / 10);
      }
    }
  }

  /** `class_validators[name] = cv` stores `cv` under `name` and keeps every other entry. */
  lemma {:induction false} UpdateValidatorHas(cvs: seq<NamedValidator>, name: string, cv: ClassValidator)
    ensures NamedValidator(name, cv) in UpdateValidator(cvs, name, cv)
    ensures forall x :: x in cvs && x.name != name ==> x in UpdateValidator(cvs, name, cv)
  {
    if cvs != [] && cvs[0].name != name {
      UpdateValidatorHas(cvs[1..], name, cv);
      assert forall x :: x in cvs ==> x == cvs[0] || x in cvs[1..];
    }
  }

  /** Every validator of a constrained list is registered as `list_{j}`: a whole-list, pre, always validator. */
  lemma {:induction false} ListValidatorsAdded(cvs: seq<NamedValidator>, own: seq<Validator>, n: nat)
    requires n <= |own|
    ensures forall j :: 0 <= j < n ==>
              NamedValidator("list_" + NatToString(j), ClassValidator(own[j], true, false, true))
                in AddListValidators(cvs, own, n)
  {
    if n > 0 {
      ListValidatorsAdded(cvs, own, n - 1);
      var prev := AddListValidators(cvs, own, n - 1);
      var name := "list_" + NatToString(n - 1);
      var cv := ClassValidator(own[n - 1], true, false, true);
      assert AddListValidators(cvs, own, n) == UpdateValidator(prev, name, cv);
      UpdateValidatorHas(prev, name, cv);
      forall j | 0 <= j < n
        ensures NamedValidator("list_" + NatToString(j), ClassValidator(own[j], true, false, true))
                  in UpdateValidator(prev, name, cv)
      {
        if j < n - 1 {
          ListNamesDistinct(j, n - 1);
        }
      }
    }
  }

  /** Distinct positions give distinct `list_{j}` names. */
  lemma ListNamesDistinct(j: nat, k: nat)
    requires j != k
    ensures "list_" + NatToString(j) != "list_" + NatToString(k)
  {
    NatToStringInjective(j, k);
    var a := "list_" + NatToString(j);
    var b := "list_" + NatToString(k);
    assert a[5..] == NatToString(j);
    assert b[5..] == NatToString(k);
  }

  /** The functions of the class validators with the given flags include each such validator's function. */
  lemma {:induction false} FuncsHas(cvs: seq<NamedValidator>, x: NamedValidator, eachItem: bool, pre: bool)
    requires x in cvs && x.spec.eachItem == eachItem && x.spec.pre == pre
    ensures x.spec.func in Funcs(cvs, eachItem, pre)
  {
    if cvs[0] != x {
      FuncsHas(cvs[1..], x, eachItem, pre);
    }
  }

  /**
   * The validators of a constrained list type run as pre-validators of the
   * whole list field, before its elements are validated.
   */
  lemma ConstrainedListValidatorsRunFirst(cfg: Config, name: string, elem: Type, own: seq<Validator>,
                                          cvs: seq<NamedValidator>, default: Value, required: bool, isConst: bool)
    ensures var r := Prepare(cfg, name, Some(ListT(elem, own)), cvs, default, required, isConst);
            r.Success? ==> r.value.shape == ListShape && forall j :: 0 <= j < |own| ==> own[j] in r.value.preValidators
  {
    var d := Initial(name, ListT(elem, own), cvs, required).(
      validateAlways := ValidateAlwaysAttr(ListT(elem, own)) || AnyAlways(cvs),
      allowNone := !required && default == NoneV);
    var a := Analyse(cfg, d);
    ListAnalysed(cfg, d, elem, own);
    if a.Success? {
      assert Prepare(cfg, name, Some(ListT(elem, own)), cvs, default, required, isConst) == Success(Populate(cfg, a.value, isConst));
      ListValidatorsInPre(cfg, a.value, isConst, cvs, own);
    }
  }

  /** Each validator of a constrained list, added as a `list_{j}` class validator, is a pre-validator of the field. */
  lemma ListValidatorsInPre(cfg: Config, a: FieldDesc, isConst: bool, cvs: seq<NamedValidator>, own: seq<Validator>)
    requires a.classValidators == AddListValidators(cvs, own, |own|)
    ensures forall j :: 0 <= j < |own| ==> own[j] in Populate(cfg, a, isConst).preValidators
  {
    ListValidatorsAdded(cvs, own, |own|);
    forall j | 0 <= j < |own|
      ensures own[j] in Populate(cfg, a, isConst).preValidators
    {
      FuncsHas(a.classValidators, NamedValidator("list_" + NatToString(j), ClassValidator(own[j], true, false, true)), false, true);
      PopulatePre(cfg, a, isConst, own[j]);
    }
  }

  /** The list branch: the list's own validators join the class validators, and the shape is `LIST`. */
  lemma ListAnalysed(cfg: Config, d: FieldDesc, elem: Type, own: seq<Validator>)
    requires d.typ == ListT(elem, own)
    ensures var r := Analyse(cfg, d);
            r.Success? ==> r.value.classValidators == AddListValidators(d.classValidators, own, |own|)
                           && r.value.shape == ListShape
  {
    var d' := d.(classValidators := AddListValidators(d.classValidators, own, |own|), typ := elem, shape := ListShape);
    assert UnwrapJson(d) == d;
    assert AnalyseUnwrapped(cfg, d) == AnalyseContainer(cfg, d) == WithElement(cfg, d');
    WithElementOk(cfg, d');
  }

  /**
   * The pre-validators are the constant check first, then the whole-field pre
   * class validators in declaration order, then JSON parsing last; the
   * whole-field post class validators, in order, are the post-validators; and
   * nothing but the three chains changes.
   */
  lemma PopulateOrder(cfg: Config, d: FieldDesc, isConst: bool)
    ensures var r := Populate(cfg, d, isConst);
            var k := if isConst then 1 else 0;
            var j := if d.parseJson then 1 else 0;
            |r.preValidators| == k + |Funcs(d.classValidators, false, true)| + j
            && (isConst ==> r.preValidators[0] == ConstantCheck)
            && (d.parseJson ==> r.preValidators[|r.preValidators| - 1] == JsonParse)
            && r.preValidators[k..|r.preValidators| - j] == Funcs(d.classValidators, false, true)
            && r.postValidators == Funcs(d.classValidators, false, false)
            && (d.subFields == [] ==> r.validators == Funcs(d.classValidators, true, true) + TypeChain(cfg, d.typ)
                                                      + Funcs(d.classValidators, true, false))
            && (d.subFields != [] ==> r.validators == d.validators)
            && r == d.(validators := r.validators, preValidators := r.preValidators, postValidators := r.postValidators)
  {
    var r := Populate(cfg, d, isConst);
    var c: seq<Validator> := if isConst then [ConstantCheck] else [];
    var f := Funcs(d.classValidators, false, true);
    var jp: seq<Validator> := if d.parseJson then [JsonParse] else [];
    assert r.preValidators == c + f + jp;
    assert (c + f + jp)[|c|..|c + f + jp| - |jp|] == f;
  }

  /** A whole-field pre class validator is a pre-validator of the field. */
  lemma PopulatePre(cfg: Config, d: FieldDesc, isConst: bool, x: Validator)
    requires x in Funcs(d.classValidators, false, true)
    ensures x in Populate(cfg, d, isConst).preValidators
  {
    assert d.classValidators != [];
    var pre := Populate(cfg, d, isConst).preValidators;
    var c: seq<Validator> := if isConst then [ConstantCheck] else [];
    var jp: seq<Validator> := if d.parseJson then [JsonParse] else [];
    assert pre == c + Funcs(d.classValidators, false, true) + jp;
  }
}
