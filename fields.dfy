/**
 * The `Field` class of `pydantic/fields.py`: its slots are filled in by
 * `prepare`, `_type_analysis` and `_populate_validators`, and `validate` with
 * its shape helpers loops over union members, elements, positions and entries.
 *
 * The ghost `Desc` is the field's slots as a value (`Analysis.FieldDesc`),
 * with the sub-fields' own descriptions nested inside; `Valid()` says the
 * slots and the sub-field objects agree with it. Every method is proved to
 * do exactly what the function of the same name in `Analysis` or `Validation`
 * describes, and the properties of the field are proved about those
 * functions.
 */
module Fields {

  import opened Wrappers
  import opened Values
  import opened Errors
  import opened TypeDescriptors
  import opened Analysis
  import opened Validation

  class Field {
    var name: string
    var typ: Option<Type>
    var default: Value
    var required: bool
    var isConst: bool
    var classValidators: seq<NamedValidator>
    var allowNone: bool
    var validateAlways: bool
    var parseJson: bool
    var shape: Shape
    var subFields: seq<Field>
    var keyField: Field?
    var validators: seq<Validator>
    var preValidators: seq<Validator>
    var postValidators: seq<Validator>

    ghost var Repr: set<object>
    ghost var Desc: FieldDesc

    /** The slots of this field, without its sub-fields, agree with `d`. */
    ghost predicate Mirrors(d: FieldDesc)
      reads this
    {
      name == d.name && typ == Some(d.typ) && shape == d.shape
      && required == d.required && allowNone == d.allowNone
      && validateAlways == d.validateAlways && parseJson == d.parseJson
      && classValidators == d.classValidators && validators == d.validators
      && preValidators == d.preValidators && postValidators == d.postValidators
      && |subFields| == |d.subFields| && (keyField == null <==> d.keyField.None?)
    }

    /** The field and, recursively, its sub-fields and key field agree with `Desc`. */
    ghost predicate Valid()
      reads this, Repr
      decreases Repr, 1
    {
      Mirrors(Desc) && Owns(this, Repr, subFields, Desc.subFields, keyField, Desc.keyField)
    }

    /**
     * The sub-fields `subs` and the key field `key` of `owner` are valid, are
     * described by `descs` and `keyDesc`, and lie inside the footprint `repr`
     * of `owner` without reaching back to it.
     */
    static ghost predicate Owns(owner: object, repr: set<object>, subs: seq<Field>, descs: seq<FieldDesc>,
                                key: Field?, keyDesc: Option<FieldDesc>)
      reads repr - {owner}
      decreases repr, 0
    {
      owner in repr
      && |subs| == |descs|
      && (forall i :: 0 <= i < |subs| ==>
            subs[i] in repr && subs[i] != owner && subs[i].Repr <= repr && owner !in subs[i].Repr
            && subs[i].Valid() && subs[i].Desc == descs[i])
      && (key != null ==>
            keyDesc.Some? && key in repr && key != owner && key.Repr <= repr && owner !in key.Repr
            && key.Valid() && key.Desc == keyDesc.value)
    }

    /** The slots as `__init__` leaves them before `prepare`. */
    ghost predicate Unprepared()
      reads this
    {
      Repr == {this} && subFields == [] && keyField == null && shape == Singleton
      && !allowNone && !validateAlways && !parseJson
      && validators == [] && preValidators == [] && postValidators == []
    }

    // ---------------------------------------------------------------- validation

    /** `_apply_validators`. */
    method ApplyValidators(v: Value, loc: Loc, run: Runner, chain: seq<Validator>) returns (r: Outcome)
      ensures r == Validation.ApplyValidators(chain, v, loc, run)
    {
      var w := v;
      var i := 0;
      while i < |chain|
        invariant 0 <= i <= |chain|
        invariant Validation.ApplyValidators(chain, v, loc, run) == Validation.ApplyValidators(chain[i..], w, loc, run)
      {
        assert chain[i..][1..] == chain[i + 1..];
        match run(chain[i], w) {
          case Pass(x) =>
            w := x;
          case Reject(e) =>
            return Returned(w, Some(Wrapper(e, loc)));
          case Crash =>
            return Raised;
        }
        i := i + 1;
      }
      return Returned(w, None);
    }

    /** `validate`. */
    method Validate(v: Value, loc: Loc, run: Runner) returns (r: Outcome)
      requires Valid()
      ensures r == Validation.Validate(Desc, v, loc, run)
      decreases Repr, 5
    {
      var w := v;
      if preValidators != [] {
        r := ApplyValidators(v, loc, run, preValidators);
        if r.Raised? || Truthy(r.errors) {
          return;
        }
        w := r.value;
      }
      if w == NoneV {
        if allowNone {
          if postValidators != [] {
            r := ApplyValidators(w, loc, run, postValidators);
          } else {
            r := Returned(NoneV, None);
          }
        } else {
          r := Returned(w, Some(Wrapper(NoneIsNotAllowed, loc)));
        }
        return;
      }
      if shape == Singleton {
        r := ValidateSingleton(w, loc, run);
      } else if shape == MappingShape {
        r := ValidateMapping(w, loc, run);
      } else if shape == TupleShape {
        r := ValidateTuple(w, loc, run);
      } else {
        r := ValidateSequenceLike(w, loc, run);
      }
      if r.Returned? && !Truthy(r.errors) && postValidators != [] {
        r := ApplyValidators(r.value, loc, run, postValidators);
      }
    }

    /** `_validate_singleton`: the union loop over the sub-fields, or the field's own chain. */
    method ValidateSingleton(v: Value, loc: Loc, run: Runner) returns (r: Outcome)
      requires Valid()
      ensures r == Validation.ValidateSingleton(Desc, v, loc, run)
      decreases Repr, 1
    {
      if subFields == [] {
        r := ApplyValidators(v, loc, run, validators);
        return;
      }
      var errors: seq<ErrorList> := [];
      var i := 0;
      while i < |subFields|
        invariant 0 <= i <= |subFields|
        invariant UnionFrom(Desc, 0, v, loc, run, []) == UnionFrom(Desc, i, v, loc, run, errors)
      {
        var res := subFields[i].Validate(v, loc, run);
        if res.Raised? {
          return Raised;
        }
        if !Truthy(res.errors) {
          return Returned(res.value, None);
        }
        errors := errors + [res.errors.value];
        i := i + 1;
      }
      r := Returned(v, Some(Errors(errors)));
    }

    /** `_validate_sequence_like`. */
    method ValidateSequenceLike(v: Value, loc: Loc, run: Runner) returns (r: Outcome)
      requires Valid()
      ensures r == Validation.ValidateSequenceLike(Desc, v, loc, run)
      decreases Repr, 3
    {
      if !SequenceLike(v) {
        return Returned(v, Some(Wrapper(ShapeError(shape), loc)));
      }
      var path := AsPath(loc);
      var result: seq<Value> := [];
      var errors: seq<ErrorList> := [];
      var i := 0;
      while i < |v.items|
        invariant 0 <= i <= |v.items|
        invariant SeqFrom(Desc, v, path, 0, [], [], run) == SeqFrom(Desc, v, path, i, result, errors, run)
      {
        var res := ValidateSingleton(v.items[i], Path(path + [Index(i)]), run);
        if res.Raised? {
          return Raised;
        }
        if Truthy(res.errors) {
          errors := errors + [res.errors.value];
        } else {
          result := result + [res.value];
        }
        i := i + 1;
      }
      if errors != [] {
        return Returned(v, Some(Errors(errors)));
      }
      var converted := Coll(ListKind, result);
      if shape == SetShape {
        converted := Coll(SetKind, Dedup(result));
      } else if shape == FrozenSetShape {
        converted := Coll(FrozenSetKind, Dedup(result));
      } else if shape == TupleEllipsisShape {
        converted := Coll(TupleKind, result);
      } else if shape == SequenceShape {
        if v.kind == TupleKind {
          converted := Coll(TupleKind, result);
        } else if v.kind == SetKind {
          converted := Coll(SetKind, Dedup(result));
        } else if v.kind == GeneratorKind {
          converted := Coll(GeneratorKind, result);
        }
      }
      r := Returned(converted, None);
    }

    /** `_validate_tuple`. */
    method ValidateTuple(v: Value, loc: Loc, run: Runner) returns (r: Outcome)
      requires Valid()
      ensures r == Validation.ValidateTuple(Desc, v, loc, run)
      decreases Repr, 3
    {
      if !SequenceLike(v) {
        return Returned(v, Some(Wrapper(TupleError, loc)));
      }
      if v.kind == GeneratorKind {
        return Raised;
      }
      if |v.items| != |subFields| {
        return Returned(v, Some(Wrapper(TupleLengthError(|v.items|, |subFields|), loc)));
      }
      var path := AsPath(loc);
      var result: seq<Value> := [];
      var errors: seq<ErrorList> := [];
      var i := 0;
      while i < |v.items|
        invariant 0 <= i <= |v.items|
        invariant TupleFrom(Desc, v, path, 0, [], [], run) == TupleFrom(Desc, v, path, i, result, errors, run)
      {
        var res := subFields[i].Validate(v.items[i], Path(path + [Index(i)]), run);
        if res.Raised? {
          return Raised;
        }
        if Truthy(res.errors) {
          errors := errors + [res.errors.value];
        } else {
          result := result + [res.value];
        }
        i := i + 1;
      }
      if errors != [] {
        return Returned(v, Some(Errors(errors)));
      }
      r := Returned(Coll(TupleKind, result), None);
    }

    /** `_validate_mapping`. */
    method ValidateMapping(v: Value, loc: Loc, run: Runner) returns (r: Outcome)
      requires Valid()
      ensures r == Validation.ValidateMapping(Desc, v, loc, run)
      decreases Repr, 3
    {
      var coerced := DictValidator(v, run);
      if coerced.Reject? {
        return Returned(v, Some(Wrapper(coerced.exc, loc)));
      }
      if coerced.Crash? || !coerced.value.Dict? {
        return Raised;
      }
      var entries := coerced.value.entries;
      var path := AsPath(loc);
      var result: seq<Entry> := [];
      var errors: seq<ErrorList> := [];
      var i := 0;
      while i < |entries|
        invariant 0 <= i <= |entries|
        invariant MapFrom(Desc, v, entries, path, 0, [], [], run) == MapFrom(Desc, v, entries, path, i, result, errors, run)
      {
        if keyField == null {
          return Raised;
        }
        var kres := keyField.Validate(entries[i].key, Path(path + [KeyMarker]), run);
        if kres.Raised? {
          return Raised;
        }
        if Truthy(kres.errors) {
          errors := errors + [kres.errors.value];
        } else {
          var vres := ValidateSingleton(entries[i].val, Path(path + [Key(entries[i].key)]), run);
          if vres.Raised? {
            return Raised;
          }
          if Truthy(vres.errors) {
            errors := errors + [vres.errors.value];
          } else {
            result := Put(result, kres.value, vres.value);
          }
        }
        i := i + 1;
      }
      if errors != [] {
        return Returned(v, Some(Errors(errors)));
      }
      r := Returned(Dict(result), None);
    }

    // ---------------------------------------------------------------- preparation

    /** `__init__` up to its call of `prepare`: the given slots, the others still empty. */
    constructor (name: string, typ: Option<Type>, cvs: seq<NamedValidator>, default: Value,
                 required: bool, isConst: bool)
      ensures Unprepared()
      ensures this.name == name && this.typ == typ && this.classValidators == cvs
      ensures this.default == default && this.required == required && this.isConst == isConst
    {
      this.name := name;
      this.typ := typ;
      this.classValidators := cvs;
      this.default := default;
      this.required := required;
      this.isConst := isConst;
      allowNone := false;
      validateAlways := false;
      subFields := [];
      keyField := null;
      validators := [];
      preValidators := [];
      postValidators := [];
      parseJson := false;
      shape := Singleton;
      Repr := {this};
      Desc := Initial(name, AnyType, cvs, required);
    }

    /** `Field(...)`: construct and prepare; an error raised by `prepare` aborts the construction. */
    static method New(cfg: Config, name: string, typ: Option<Type>, cvs: seq<NamedValidator>,
                      default: Value, required: bool, isConst: bool) returns (r: Result<Field, SetupError>)
      ensures var spec := Analysis.Prepare(cfg, name, typ, cvs, default, required, isConst);
              (r.Success? <==> spec.Success?)
              && (r.Failure? ==> r.error == spec.error)
              && (r.Success? ==> r.value.Valid() && fresh(r.value.Repr) && r.value.Desc == spec.value)
      decreases PrepareSize(typ, default), 7
    {
      var f := new Field(name, typ, cvs, default, required, isConst);
      var err := f.Prepare(cfg);
      if err.Some? {
        return Failure(err.value);
      }
      return Success(f);
    }

    /** `prepare`. */
    method Prepare(cfg: Config) returns (err: Option<SetupError>)
      requires Unprepared()
      modifies this
      ensures var spec := Analysis.Prepare(cfg, old(name), old(typ), old(classValidators),
                                           old(default), old(required), old(isConst));
              (err.None? <==> spec.Success?)
              && (err.Some? ==> err.value == spec.error)
              && (err.None? ==> Valid() && Desc == spec.value && fresh(Repr - {this}))
      decreases PrepareSize(typ, default), 6
    {
      ghost var t := InferType(typ, default);
      if default != NoneV && typ.None? {
        typ := Some(TypeOf(default));
      }
      assert typ == t;
      if typ.None? {
        return Some(ConfigError("unable to infer type for attribute \"" + name + "\""));
      }
      Desc := Initial(name, typ.value, classValidators, required);
      if typ.value.ForwardRef? {
        return None;
      }
      err := PrepareKnownType(cfg);
    }

    /** The rest of `prepare` once the type is known: `validate_always`, `allow_none`, `_type_analysis`, `_populate_validators`. */
    method PrepareKnownType(cfg: Config) returns (err: Option<SetupError>)
      requires Valid() && Repr == {this} && subFields == [] && keyField == null
      modifies this
      ensures var d := old(Desc).(validateAlways := ValidateAlwaysAttr(old(Desc).typ) || AnyAlways(old(classValidators)),
                                  allowNone := old(allowNone) || (!old(required) && old(default) == NoneV));
              var spec := Analyse(cfg, d);
              (err.None? <==> spec.Success?)
              && (err.Some? ==> err.value == spec.error)
              && (err.None? ==> Valid() && Desc == Populate(cfg, spec.value, old(isConst)) && fresh(Repr - {this}))
      decreases Size(Desc.typ), 5
    {
      ghost var d := Desc.(validateAlways := ValidateAlwaysAttr(Desc.typ) || AnyAlways(classValidators),
                           allowNone := allowNone || (!required && default == NoneV));
      SetValidateAlways(ValidateAlwaysAttr(typ.value) || AnyAlways(classValidators));
      if !required && default == NoneV {
        SetAllowNone();
      }
      assert Desc == d;
      err := AnalyseAndPopulate(cfg);
    }

    /** `_type_analysis` followed, when it succeeds, by `_populate_validators`. */
    method AnalyseAndPopulate(cfg: Config) returns (err: Option<SetupError>)
      requires Valid() && Repr == {this} && subFields == [] && keyField == null
      modifies this
      ensures var spec := Analyse(cfg, old(Desc));
              (err.None? <==> spec.Success?)
              && (err.Some? ==> err.value == spec.error)
              && (err.None? ==> Valid() && Desc == Populate(cfg, spec.value, old(isConst)) && fresh(Repr - {this}))
      decreases Size(Desc.typ), 4
    {
      err := TypeAnalysis(cfg);
      if err.None? {
        PopulateValidators(cfg);
      }
    }

    /** `_type_analysis`. */
    method TypeAnalysis(cfg: Config) returns (err: Option<SetupError>)
      requires Valid() && Repr == {this} && subFields == [] && keyField == null
      modifies this
      ensures var spec := Analyse(cfg, old(Desc));
              (err.None? <==> spec.Success?)
              && (err.Some? ==> err.value == spec.error)
              && (err.None? ==> Valid() && Desc == spec.value && fresh(Repr - {this}))
      ensures isConst == old(isConst)
      decreases Size(Desc.typ), 3
    {
      UnwrapJson();
      err := AnalyseUnwrapped(cfg);
    }

    /** `_type_analysis` after the `Json` checks. */
    method AnalyseUnwrapped(cfg: Config) returns (err: Option<SetupError>)
      requires Valid() && Repr == {this} && subFields == [] && keyField == null
      modifies this
      ensures var spec := Analysis.AnalyseUnwrapped(cfg, old(Desc));
              (err.None? <==> spec.Success?)
              && (err.Some? ==> err.value == spec.error)
              && (err.None? ==> Valid() && Desc == spec.value && fresh(Repr - {this}))
      ensures isConst == old(isConst)
      decreases Size(Desc.typ), 2
    {
      var t := typ.value;
      if t.Literal? {
        if |t.values| > 1 {
          var members := LiteralMembers(t.values);
          LiteralSize(t.values);
          SetType(Union(members));
          err := AnalyseUnion(cfg, members);
        } else {
          err := None;
        }
      } else if t.Union? {
        err := AnalyseUnion(cfg, t.args);
      } else if t.Tuple? {
        err := AnalyseTuple(cfg, t.args);
      } else if t.ListT? || t.SetT? || t.FrozenSetT? || t.SequenceT? || t.MappingT? {
        err := AnalyseContainer(cfg);
      } else if t.Unsupported? {
        err := Some(UnsupportedType(t.origin));
      } else {
        err := None;
      }
    }

    /** The `Json` and `JsonWrapper` checks at the start of `_type_analysis`. */
    method UnwrapJson()
      requires Valid()
      modifies this
      ensures Valid() && Desc == Analysis.UnwrapJson(old(Desc)) && Kept()
    {
      var t := typ.value;
      if t.JsonWrapper? {
        SetType(t.inner);
        SetParseJson();
      } else if t == Json {
        SetType(AnyType);
        SetParseJson();
      }
    }

    /** The list, set, frozenset, sequence and mapping branches of `_type_analysis`. */
    method AnalyseContainer(cfg: Config) returns (err: Option<SetupError>)
      requires Valid() && Repr == {this} && subFields == [] && keyField == null
      modifies this
      ensures var spec := Analysis.AnalyseContainer(cfg, old(Desc));
              (err.None? <==> spec.Success?)
              && (err.Some? ==> err.value == spec.error)
              && (err.None? ==> Valid() && Desc == spec.value && fresh(Repr - {this}))
      ensures isConst == old(isConst)
      decreases Size(Desc.typ), 1
    {
      match typ.value {
        case ListT(elem, own) =>
          err := AnalyseList(cfg, elem, own);
        case SetT(elem) =>
          err := AnalyseCollection(cfg, elem, SetShape);
        case FrozenSetT(elem) =>
          err := AnalyseCollection(cfg, elem, FrozenSetShape);
        case SequenceT(elem) =>
          err := AnalyseCollection(cfg, elem, SequenceShape);
        case MappingT(key, value) =>
          err := AnalyseMapping(cfg, key, value);
        case _ =>
          err := None;
      }
    }

    /**
     * The `List` branch: the type's own `__get_validators__` become class
     * validators `list_0`, `list_1`, ... (pre, always), then the element field.
     */
    method AnalyseList(cfg: Config, elem: Type, own: seq<Validator>) returns (err: Option<SetupError>)
      requires Valid() && Repr == {this} && subFields == [] && keyField == null
      modifies this
      ensures var spec := WithElement(cfg, old(Desc).(classValidators := AddListValidators(old(Desc).classValidators, own, |own|),
                                                      typ := elem, shape := ListShape));
              (err.None? <==> spec.Success?)
              && (err.Some? ==> err.value == spec.error)
              && (err.None? ==> Valid() && Desc == spec.value && fresh(Repr - {this}))
      ensures isConst == old(isConst)
      decreases Size(elem), 10
    {
      var cvs := classValidators;
      var i := 0;
      while i < |own|
        invariant 0 <= i <= |own|
        invariant cvs == AddListValidators(classValidators, own, i)
      {
        cvs := UpdateValidator(cvs, "list_" + NatToString(i), ClassValidator(own[i], true, false, true));
        i := i + 1;
      }
      SetClassValidators(cvs);
      Refine(elem, ListShape);
      err := AddElementField(cfg);
    }

    /** The `Set`, `FrozenSet` and `Sequence` branches: the element type and the shape, then the element field. */
    method AnalyseCollection(cfg: Config, elem: Type, s: Shape) returns (err: Option<SetupError>)
      requires Valid() && Repr == {this} && subFields == [] && keyField == null
      modifies this
      ensures var spec := WithElement(cfg, old(Desc).(typ := elem, shape := s));
              (err.None? <==> spec.Success?)
              && (err.Some? ==> err.value == spec.error)
              && (err.None? ==> Valid() && Desc == spec.value && fresh(Repr - {this}))
      ensures isConst == old(isConst)
      decreases Size(elem), 10
    {
      Refine(elem, s);
      err := AddElementField(cfg);
    }

    /** The `Mapping` branch. */
    method AnalyseMapping(cfg: Config, key: Type, value: Type) returns (err: Option<SetupError>)
      requires Valid() && Repr == {this} && subFields == [] && keyField == null
      modifies this
      ensures var spec := Analysis.AnalyseMapping(cfg, old(Desc), key, value);
              (err.None? <==> spec.Success?)
              && (err.Some? ==> err.value == spec.error)
              && (err.None? ==> Valid() && Desc == spec.value && fresh(Repr - {this}))
      ensures isConst == old(isConst)
      decreases Size(key) + Size(value), 9
    {
      var kr := CreateSubType(cfg, key, "key_" + name, true);
      if kr.Failure? {
        return Some(kr.error);
      }
      err := AddKeyAndValue(cfg, kr.value, value);
    }

    /** The rest of the `Mapping` branch: the key field is stored, the value type and shape set, the element field added. */
    method AddKeyAndValue(cfg: Config, kf: Field, value: Type) returns (err: Option<SetupError>)
      requires Valid() && Repr == {this} && subFields == [] && keyField == null
      requires kf.Valid() && this !in kf.Repr
      modifies this
      ensures var spec := WithElement(cfg, old(Desc).(keyField := Some(kf.Desc), typ := value, shape := MappingShape));
              (err.None? <==> spec.Success?)
              && (err.Some? ==> err.value == spec.error)
              && (err.None? ==> Valid() && Desc == spec.value && kf.Repr <= Repr && fresh(Repr - {this} - kf.Repr))
      ensures isConst == old(isConst)
      decreases Size(value), 10
    {
      AttachKey(kf);
      Refine(value, MappingShape);
      err := AddElementField(cfg);
    }

    /** The `Union` branch of `_type_analysis`. */
    method AnalyseUnion(cfg: Config, args: seq<Type>) returns (err: Option<SetupError>)
      requires Valid() && Repr == {this} && subFields == [] && keyField == null
      modifies this
      ensures var spec := Analysis.AnalyseUnion(cfg, old(Desc), args);
              (err.None? <==> spec.Success?)
              && (err.Some? ==> err.value == spec.error)
              && (err.None? ==> Valid() && Desc == spec.value && fresh(Repr - {this}))
      ensures isConst == old(isConst)
      decreases 1 + SizeAll(args), 1
    {
      var types := CollectMembers(args);
      if |types| == 1 {
        SizeMember(types, 0);
        SetType(types[0]);
        err := TypeAnalysis(cfg);
        return;
      }
      err := AddMemberFields(cfg, types);
    }

    /** The loop over a union's arguments: each `NoneType` makes the field optional, the others are kept in order. */
    method CollectMembers(args: seq<Type>) returns (types: seq<Type>)
      requires Valid()
      modifies this
      ensures types == NonNone(args)
      ensures Valid() && Kept()
      ensures Desc == if NoneType in args then old(Desc).(required := false, allowNone := true) else old(Desc)
    {
      types := [];
      var optional := false;
      var i := 0;
      while i < |args|
        invariant 0 <= i <= |args|
        invariant types == NonNone(args[..i])
        invariant optional <==> NoneType in args[..i]
        modifies {}
      {
        NonNoneSnoc(args[..i], args[i]);
        assert args[..i + 1] == args[..i] + [args[i]];
        if args[i] == NoneType {
          optional := true;
        } else {
          types := types + [args[i]];
        }
        i := i + 1;
      }
      assert args[..i] == args;
      if optional {
        SetOptional();
      }
    }

    /** The sub-fields of a union with several members, named as `UnionNames` says. */
    method AddMemberFields(cfg: Config, types: seq<Type>) returns (err: Option<SetupError>)
      requires Valid() && Repr == {this} && subFields == [] && keyField == null
      modifies this
      ensures var spec := PrepareAll(cfg, types, UnionNames(cfg, old(name), types), EachItem(old(classValidators)));
              (err.None? <==> spec.Success?)
              && (err.Some? ==> err.value == spec.error)
              && (err.None? ==> Valid() && Desc == old(Desc).(subFields := spec.value) && fresh(Repr - {this}))
      ensures isConst == old(isConst)
      decreases SizeAll(types), 10
    {
      var names := UnionNames(cfg, name, types);
      var subs;
      ghost var descs, repr;
      err, subs, descs, repr := CreateMemberFields(cfg, types, names);
      if err.None? {
        AttachSubFields(subs, descs, repr);
      }
    }

    /** The sub-fields of a union, one per member, named `names`; the first failure aborts. */
    method CreateMemberFields(cfg: Config, types: seq<Type>, names: seq<string>)
      returns (err: Option<SetupError>, subs: seq<Field>, ghost descs: seq<FieldDesc>, ghost repr: set<object>)
      requires Valid() && Repr == {this} && keyField == null && |names| == |types|
      ensures var spec := PrepareAll(cfg, types, names, EachItem(classValidators));
              (err.None? <==> spec.Success?)
              && (err.Some? ==> err.value == spec.error)
              && (err.None? ==> descs == spec.value && Owns(this, {this} + repr, subs, descs, null, None)
                                && fresh(repr))
      decreases SizeAll(types), 9
    {
      var cvs := EachItem(classValidators);
      subs, descs, repr := [], [], {};
      assert types[0..] == types && names[0..] == names;
      PrefixedNil(PrepareAll(cfg, types, names, cvs));
      var i := 0;
      while i < |types|
        invariant 0 <= i <= |types|
        invariant |subs| == |descs| == i
        invariant PrepareAll(cfg, types, names, cvs) == Prefixed(descs, PrepareAll(cfg, types[i..], names[i..], cvs))
        invariant Owns(this, {this} + repr, subs, descs, null, None)
        invariant fresh(repr)
      {
        SizeMember(types, i);
        var r := CreateSubType(cfg, types[i], names[i], false);
        if r.Failure? {
          PrepareAllFailureStep(cfg, types, names, cvs, i, descs, r.error);
          return Some(r.error), subs, descs, repr;
        }
        PrepareAllSuccessStep(cfg, types, names, cvs, i, descs, r.value.Desc);
        CollectedGrow(this, repr, subs, descs, r.value);
        subs := subs + [r.value];
        descs := descs + [r.value.Desc];
        repr := repr + r.value.Repr;
        i := i + 1;
      }
      assert descs + [] == descs;
      err := None;
    }

    /** The `Tuple` branch of `_type_analysis`. */
    method AnalyseTuple(cfg: Config, args: seq<Type>) returns (err: Option<SetupError>)
      requires Valid() && Repr == {this} && subFields == [] && keyField == null
      modifies this
      ensures var spec := Analysis.AnalyseTuple(cfg, old(Desc), args);
              (err.None? <==> spec.Success?)
              && (err.Some? ==> err.value == spec.error)
              && (err.None? ==> Valid() && Desc == spec.value && fresh(Repr - {this}))
      ensures isConst == old(isConst)
      decreases 1 + SizeAll(args), 1
    {
      ChangeShape(TupleShape);
      var subs, i;
      ghost var descs, repr;
      err, subs, descs, repr, i := CreatePositionFields(cfg, args);
      if err.Some? {
        return;
      }
      AttachSubFields(subs, descs, repr);
      if i < |args| {
        Refine(args[0], TupleEllipsisShape);
      }
    }

    /**
     * The position loop of the `Tuple` branch: one sub-field `{name}_{i}` per
     * position up to the first `Ellipsis`, where it stops at `i`; the first
     * failure aborts.
     */
    method CreatePositionFields(cfg: Config, args: seq<Type>)
      returns (err: Option<SetupError>, subs: seq<Field>, ghost descs: seq<FieldDesc>, ghost repr: set<object>, i: nat)
      requires Valid() && Repr == {this} && keyField == null
      ensures var spec := PositionFields(cfg, args, name, EachItem(classValidators), 0);
              (err.None? <==> spec.Success?)
              && (err.Some? ==> err.value == spec.error)
              && (err.None? ==> descs == spec.value && Owns(this, {this} + repr, subs, descs, null, None)
                                && fresh(repr) && (i < |args| <==> Ellipsis in args))
      decreases SizeAll(args), 9
    {
      var cvs := EachItem(classValidators);
      subs, descs, repr := [], [], {};
      PrefixedNil(PositionFields(cfg, args, name, cvs, 0));
      i := 0;
      while i < |args| && args[i] != Ellipsis
        invariant 0 <= i <= |args|
        invariant Ellipsis !in args[..i]
        invariant |subs| == |descs| == i
        invariant PositionFields(cfg, args, name, cvs, 0) == Prefixed(descs, PositionFields(cfg, args, name, cvs, i))
        invariant Owns(this, {this} + repr, subs, descs, null, None)
        invariant fresh(repr)
      {
        SizeMember(args, i);
        var r := CreateSubType(cfg, args[i], name + "_" + NatToString(i), false);
        if r.Failure? {
          PositionFieldsFailureStep(cfg, args, name, cvs, i, descs, r.error);
          return Some(r.error), subs, descs, repr, i;
        }
        PositionFieldsSuccessStep(cfg, args, name, cvs, i, descs, r.value.Desc);
        NoEllipsisSnoc(args, i);
        CollectedGrow(this, repr, subs, descs, r.value);
        subs := subs + [r.value];
        descs := descs + [r.value.Desc];
        repr := repr + r.value.Repr;
        i := i + 1;
      }
      PositionFieldsStop(cfg, args, name, cvs, i, descs);
      assert i == |args| ==> args[..i] == args;
      err := None;
    }

    /** The end of `_type_analysis` for a container: the element sub-field `_{name}` over the refined type. */
    method AddElementField(cfg: Config) returns (err: Option<SetupError>)
      requires Valid() && subFields == []
      modifies this
      ensures var spec := WithElement(cfg, old(Desc));
              (err.None? <==> spec.Success?)
              && (err.Some? ==> err.value == spec.error)
              && (err.None? ==> Valid() && Desc == spec.value && old(Repr) <= Repr && fresh(Repr - old(Repr)))
      ensures isConst == old(isConst)
      decreases Size(Desc.typ), 9
    {
      var r := CreateSubType(cfg, typ.value, "_" + name, false);
      if r.Failure? {
        return Some(r.error);
      }
      OwnsGrowSub(this, Repr, [], [], keyField, Desc.keyField, r.value);
      AttachSubFields([r.value], [r.value.Desc], r.value.Repr);
      err := None;
    }

    /** `_create_sub_type`: a required field over `t` with no default, inheriting the `each_item` class validators unless it is for keys. */
    method CreateSubType(cfg: Config, t: Type, subName: string, forKeys: bool) returns (r: Result<Field, SetupError>)
      ensures var spec := Analysis.Prepare(cfg, subName, Some(t), if forKeys then [] else EachItem(classValidators),
                                           NoneV, true, false);
              (r.Success? <==> spec.Success?)
              && (r.Failure? ==> r.error == spec.error)
              && (r.Success? ==> r.value.Valid() && fresh(r.value.Repr) && r.value.Desc == spec.value)
      decreases Size(t), 8
    {
      var cvs := if forKeys then [] else EachItem(classValidators);
      r := New(cfg, subName, Some(t), cvs, NoneV, true, false);
    }

    /** `_populate_validators`. */
    method PopulateValidators(cfg: Config)
      requires Valid()
      modifies this
      ensures Valid() && Desc == Populate(cfg, old(Desc), isConst) && Kept()
    {
      ghost var d := Populate(cfg, Desc, isConst);
      assert (subFields == []) == (Desc.subFields == []);
      var cvs := classValidators;
      var vs := validators;
      if subFields == [] {
        vs := Funcs(cvs, true, true) + TypeChain(cfg, typ.value) + Funcs(cvs, true, false);
      }
      var pre: seq<Validator> := [];
      var post: seq<Validator> := [];
      if isConst {
        pre := [ConstantCheck];
      }
      if cvs != [] {
        pre := pre + Funcs(cvs, false, true);
        post := Funcs(cvs, false, false);
      }
      if parseJson {
        pre := pre + [JsonParse];
      }
      assert d == Desc.(validators := vs, preValidators := pre, postValidators := post);
      SetChains(vs, pre, post);
    }

    // ---------------------------------------------------------------- slot updates

    /** The footprint, the sub-field and key-field objects, `default` and the const flag are as before. */
    twostate predicate Kept()
      reads this
    {
      Repr == old(Repr) && subFields == old(subFields) && keyField == old(keyField)
      && default == old(default) && isConst == old(isConst)
    }

    /** `self.validate_always = b`. */
    method SetValidateAlways(b: bool)
      requires Valid()
      modifies this
      ensures Valid() && Desc == old(Desc).(validateAlways := b) && Kept()
    {
      validateAlways, Desc := b, Desc.(validateAlways := b);
    }

    /** `self.allow_none = True`. */
    method SetAllowNone()
      requires Valid()
      modifies this
      ensures Valid() && Desc == old(Desc).(allowNone := true) && Kept()
    {
      allowNone, Desc := true, Desc.(allowNone := true);
    }

    /** `self.required = False; self.allow_none = True`, for a `None` member of a union. */
    method SetOptional()
      requires Valid()
      modifies this
      ensures Valid() && Desc == old(Desc).(required := false, allowNone := true) && Kept()
    {
      required, allowNone, Desc := false, true, Desc.(required := false, allowNone := true);
    }

    /** `self.type_ = t`. */
    method SetType(t: Type)
      requires Valid()
      modifies this
      ensures Valid() && Desc == old(Desc).(typ := t) && Kept()
    {
      typ, Desc := Some(t), Desc.(typ := t);
    }

    /** `self.type_ = t` followed by `self.shape = s`, as every container branch ends. */
    method Refine(t: Type, s: Shape)
      requires Valid()
      modifies this
      ensures Valid() && Desc == old(Desc).(typ := t, shape := s) && Kept()
    {
      typ, shape, Desc := Some(t), s, Desc.(typ := t, shape := s);
    }

    /** `self.parse_json = True`. */
    method SetParseJson()
      requires Valid()
      modifies this
      ensures Valid() && Desc == old(Desc).(parseJson := true) && Kept()
    {
      parseJson, Desc := true, Desc.(parseJson := true);
    }

    /** `self.shape = s`. */
    method ChangeShape(s: Shape)
      requires Valid()
      modifies this
      ensures Valid() && Desc == old(Desc).(shape := s) && Kept()
    {
      shape, Desc := s, Desc.(shape := s);
    }

    /** The class validators after `update`. */
    method SetClassValidators(cvs: seq<NamedValidator>)
      requires Valid()
      modifies this
      ensures Valid() && Desc == old(Desc).(classValidators := cvs) && Kept()
    {
      classValidators, Desc := cvs, Desc.(classValidators := cvs);
    }

    /** `self.key_field = kf`, taking its objects into the footprint. */
    method AttachKey(kf: Field)
      requires Valid() && keyField == null && subFields == []
      requires kf.Valid() && this !in kf.Repr
      modifies this
      ensures Valid() && Desc == old(Desc).(keyField := Some(kf.Desc))
      ensures Repr == old(Repr) + kf.Repr && keyField == kf && subFields == old(subFields)
      ensures default == old(default) && isConst == old(isConst)
    {
      assert Desc.subFields == [];
      OwnsGrowKey(this, Repr, kf);
      keyField, Repr, Desc := kf, Repr + kf.Repr, Desc.(keyField := Some(kf.Desc));
    }

    /** `self.sub_fields = subs`, taking their objects into the footprint. */
    method AttachSubFields(subs: seq<Field>, ghost descs: seq<FieldDesc>, ghost repr: set<object>)
      requires Valid() && subFields == []
      requires Owns(this, Repr + repr, subs, descs, keyField, Desc.keyField)
      modifies this
      ensures Valid() && Desc == old(Desc).(subFields := descs)
      ensures Repr == old(Repr) + repr && subFields == subs && keyField == old(keyField)
      ensures default == old(default) && isConst == old(isConst)
    {
      subFields, Repr, Desc := subs, Repr + repr, Desc.(subFields := descs);
    }

    /** The three validator chains. */
    method SetChains(vs: seq<Validator>, pre: seq<Validator>, post: seq<Validator>)
      requires Valid()
      modifies this
      ensures Valid() && Desc == old(Desc).(validators := vs, preValidators := pre, postValidators := post) && Kept()
    {
      validators, preValidators, postValidators, Desc := vs, pre, post, Desc.(validators := vs, preValidators := pre, postValidators := post);
    }

    /** A valid field outside `owner` can become its key field. */
    static lemma OwnsGrowKey(owner: object, repr: set<object>, key: Field)
      requires owner in repr && key.Valid() && owner !in key.Repr
      ensures Owns(owner, repr + key.Repr, [], [], key, Some(key.Desc))
    {
    }

    /** `OwnsGrowSub` for the sub-fields a loop collects before they are attached. */
    static lemma CollectedGrow(owner: object, repr: set<object>, subs: seq<Field>, descs: seq<FieldDesc>, sub: Field)
      requires Owns(owner, {owner} + repr, subs, descs, null, None)
      requires sub.Valid() && owner !in sub.Repr
      ensures Owns(owner, {owner} + (repr + sub.Repr), subs + [sub], descs + [sub.Desc], null, None)
    {
      assert {owner} + (repr + sub.Repr) == ({owner} + repr) + sub.Repr;
      OwnsGrowSub(owner, {owner} + repr, subs, descs, null, None, sub);
    }

    /** A valid field outside `owner` can be appended to its sub-fields. */
    static lemma OwnsGrowSub(owner: object, repr: set<object>, subs: seq<Field>, descs: seq<FieldDesc>,
                             key: Field?, keyDesc: Option<FieldDesc>, sub: Field)
      requires Owns(owner, repr, subs, descs, key, keyDesc)
      requires sub.Valid() && owner !in sub.Repr
      ensures Owns(owner, repr + sub.Repr, subs + [sub], descs + [sub.Desc], key, keyDesc)
    {
    }
  }
}
