/**
 * What `Field.validate` guarantees, proved over the functions of
 * `Validation`: how a validator chain composes and where it files its error,
 * that every error lands under the field's own location, how a union picks
 * its member, how the element, position and entry loops gather results and
 * errors, and how `None` is treated.
 */
module ValidationProperties {

  import opened Wrappers
  import opened Values
  import opened Errors
  import opened TypeDescriptors
  import opened Analysis
  import opened Validation
  import AnalysisProperties

  // ------------------------------------------------------------ validator chains

  /** Running `a + b` is running `a`, then `b` on its value unless `a` stopped. */
  lemma {:induction false} ApplyAppend(a: seq<Validator>, b: seq<Validator>, v: Value, loc: Loc, run: Runner)
    ensures ApplyValidators(a + b, v, loc, run)
            == match ApplyValidators(a, v, loc, run)
               case Returned(w, None) => ApplyValidators(b, w, loc, run)
               case other => other
    decreases |a|
  {
    if a == [] {
      assert a + b == b;
    } else {
      assert (a + b)[0] == a[0];
      assert (a + b)[1..] == a[1..] + b;
      match run(a[0], v)
      case Pass(w) => ApplyAppend(a[1..], b, w, loc, run);
      case Reject(_) =>
      case Crash =>
    }
  }

  /**
   * A chain that stops with an error stops at a validator that rejected the
   * value it returns, and files exactly that exception at `loc`.
   */
  lemma {:induction false} ApplyErrorAt(chain: seq<Validator>, v: Value, loc: Loc, run: Runner)
    ensures var r := ApplyValidators(chain, v, loc, run);
            r.Returned? && r.errors.Some? ==>
              r.errors.value.Wrapper? && r.errors.value.loc == loc
              && exists i :: 0 <= i < |chain| && run(chain[i], r.value) == Reject(r.errors.value.exc)
    decreases |chain|
  {
    if chain != [] {
      match run(chain[0], v)
      case Pass(w) =>
        ApplyErrorAt(chain[1..], w, loc, run);
        var r := ApplyValidators(chain, v, loc, run);
        if r.Returned? && r.errors.Some? {
          var i :| 0 <= i < |chain[1..]| && run(chain[1..][i], r.value) == Reject(r.errors.value.exc);
          assert run(chain[i + 1], r.value) == Reject(r.errors.value.exc);
        }
      case Reject(e) =>
        assert run(chain[0], v) == Reject(e);
      case Crash =>
    }
  }

  /** A chain that returns no error has every validator pass, each on the previous one's value. */
  lemma {:induction false} ApplyAllPass(chain: seq<Validator>, v: Value, loc: Loc, run: Runner)
    ensures var r := ApplyValidators(chain, v, loc, run);
            r.Returned? && r.errors.None? ==> r.value == Fold(chain, v, run)
    decreases |chain|
  {
    if chain != [] && run(chain[0], v).Pass? {
      ApplyAllPass(chain[1..], run(chain[0], v).value, loc, run);
    }
  }

  /** The value a chain produces when every validator passes (the last value reached otherwise). */
  function Fold(chain: seq<Validator>, v: Value, run: Runner): Value
    decreases |chain|
  {
    if chain == [] then v
    else match run(chain[0], v)
      case Pass(w) => Fold(chain[1..], w, run)
      case _ => v
  }

  // ------------------------------------------------------------ error locations

  /** The errors of an outcome, when there are any, all lie under `p`. */
  predicate ErrorsUnder(o: Outcome, p: seq<Seg>) {
    o.Returned? && o.errors.Some? ==> Under(o.errors.value, p)
  }

  /** Every error list gathered so far lies under `p`. */
  predicate AllUnder(errors: seq<ErrorList>, p: seq<Seg>) {
    forall j :: 0 <= j < |errors| ==> Under(errors[j], p)
  }

  /** An error under a longer location is under any prefix of it. */
  lemma {:induction false} UnderWeaken(e: ErrorList, p: seq<Seg>, q: seq<Seg>)
    requires Under(e, p) && q <= p
    ensures Under(e, q)
    decreases e
  {
    match e
    case Wrapper(_, _) =>
    case Errors(items) =>
      forall j | 0 <= j < |items|
        ensures Under(items[j], q)
      {
        UnderWeaken(items[j], p, q);
      }
  }

  /** One more error list under `p`. */
  lemma AllUnderSnoc(errors: seq<ErrorList>, e: ErrorList, p: seq<Seg>)
    requires AllUnder(errors, p) && Under(e, p)
    ensures AllUnder(errors + [e], p)
  {
  }

  /** An element's error, filed under `p + [s]`, lies under `p`. */
  lemma UnderChild(o: Outcome, p: seq<Seg>, s: Seg)
    requires ErrorsUnder(o, p + [s])
    ensures ErrorsUnder(o, p)
  {
    if o.Returned? && o.errors.Some? {
      UnderWeaken(o.errors.value, p + [s], p);
    }
  }

  lemma ApplyUnder(chain: seq<Validator>, v: Value, loc: Loc, run: Runner)
    ensures ErrorsUnder(ApplyValidators(chain, v, loc, run), AsPath(loc))
  {
    ApplyErrorAt(chain, v, loc, run);
  }

  /** Every error `validate` reports is filed under the location it was given. */
  lemma {:induction false} ValidateUnder(d: FieldDesc, v: Value, loc: Loc, run: Runner)
    ensures ErrorsUnder(Validate(d, v, loc, run), AsPath(loc))
    decreases d, 5, 0
  {
    var pre := if d.preValidators != [] then ApplyValidators(d.preValidators, v, loc, run) else Returned(v, None);
    ApplyUnder(d.preValidators, v, loc, run);
    ApplyUnder(d.postValidators, NoneV, loc, run);
    if pre.Returned? && !Truthy(pre.errors) && pre.value != NoneV {
      DispatchUnder(d, pre.value, loc, run);
      var s := Dispatch(d, pre.value, loc, run);
      if s.Returned? {
        ApplyUnder(d.postValidators, s.value, loc, run);
      }
    }
  }

  lemma {:induction false} DispatchUnder(d: FieldDesc, v: Value, loc: Loc, run: Runner)
    ensures ErrorsUnder(Dispatch(d, v, loc, run), AsPath(loc))
    decreases d, 4, 0
  {
    match d.shape
    case Singleton => SingletonUnder(d, v, loc, run);
    case MappingShape => MappingUnder(d, v, loc, run);
    case TupleShape => TupleUnder(d, v, loc, run);
    case _ => SequenceLikeUnder(d, v, loc, run);
  }

  lemma {:induction false} SingletonUnder(d: FieldDesc, v: Value, loc: Loc, run: Runner)
    ensures ErrorsUnder(ValidateSingleton(d, v, loc, run), AsPath(loc))
    decreases d, 1, 0
  {
    if d.subFields != [] {
      UnionFromUnder(d, 0, v, loc, run, []);
    } else {
      ApplyUnder(d.validators, v, loc, run);
    }
  }

  lemma {:induction false} UnionFromUnder(d: FieldDesc, i: nat, v: Value, loc: Loc, run: Runner, errors: seq<ErrorList>)
    requires i <= |d.subFields|
    requires AllUnder(errors, AsPath(loc))
    ensures ErrorsUnder(UnionFrom(d, i, v, loc, run, errors), AsPath(loc))
    decreases d, 0, |d.subFields| - i
  {
    if i < |d.subFields| {
      var o := Validate(d.subFields[i], v, loc, run);
      ValidateUnder(d.subFields[i], v, loc, run);
      if o.Returned? && Truthy(o.errors) {
        AllUnderSnoc(errors, o.errors.value, AsPath(loc));
        UnionFromUnder(d, i + 1, v, loc, run, errors + [o.errors.value]);
      }
    }
  }

  lemma {:induction false} SequenceLikeUnder(d: FieldDesc, v: Value, loc: Loc, run: Runner)
    ensures ErrorsUnder(ValidateSequenceLike(d, v, loc, run), AsPath(loc))
    decreases d, 3, 0
  {
    if SequenceLike(v) {
      SeqFromUnder(d, v, AsPath(loc), 0, [], [], run);
    }
  }

  lemma {:induction false} SeqFromUnder(d: FieldDesc, v: Value, path: seq<Seg>, i: nat,
                                        result: seq<Value>, errors: seq<ErrorList>, run: Runner)
    requires v.Coll? && i <= |v.items|
    requires AllUnder(errors, path)
    ensures ErrorsUnder(SeqFrom(d, v, path, i, result, errors, run), path)
    decreases d, 2, |v.items| - i
  {
    if i < |v.items| {
      var at := Path(path + [Index(i)]);
      var o := ValidateSingleton(d, v.items[i], at, run);
      SingletonUnder(d, v.items[i], at, run);
      UnderChild(o, path, Index(i));
      if o.Returned? {
        if Truthy(o.errors) {
          AllUnderSnoc(errors, o.errors.value, path);
          SeqFromUnder(d, v, path, i + 1, result, errors + [o.errors.value], run);
        } else {
          SeqFromUnder(d, v, path, i + 1, result + [o.value], errors, run);
        }
      }
    }
  }

  lemma {:induction false} TupleUnder(d: FieldDesc, v: Value, loc: Loc, run: Runner)
    ensures ErrorsUnder(ValidateTuple(d, v, loc, run), AsPath(loc))
    decreases d, 3, 0
  {
    if SequenceLike(v) && v.kind != GeneratorKind && |v.items| == |d.subFields| {
      TupleFromUnder(d, v, AsPath(loc), 0, [], [], run);
    }
  }

  lemma {:induction false} TupleFromUnder(d: FieldDesc, v: Value, path: seq<Seg>, i: nat,
                                          result: seq<Value>, errors: seq<ErrorList>, run: Runner)
    requires v.Coll? && |v.items| == |d.subFields| && i <= |v.items|
    requires AllUnder(errors, path)
    ensures ErrorsUnder(TupleFrom(d, v, path, i, result, errors, run), path)
    decreases d, 2, |v.items| - i
  {
    if i < |v.items| {
      var at := Path(path + [Index(i)]);
      var o := Validate(d.subFields[i], v.items[i], at, run);
      ValidateUnder(d.subFields[i], v.items[i], at, run);
      UnderChild(o, path, Index(i));
      if o.Returned? {
        if Truthy(o.errors) {
          AllUnderSnoc(errors, o.errors.value, path);
          TupleFromUnder(d, v, path, i + 1, result, errors + [o.errors.value], run);
        } else {
          TupleFromUnder(d, v, path, i + 1, result + [o.value], errors, run);
        }
      }
    }
  }

  lemma {:induction false} MappingUnder(d: FieldDesc, v: Value, loc: Loc, run: Runner)
    ensures ErrorsUnder(ValidateMapping(d, v, loc, run), AsPath(loc))
    decreases d, 3, 0
  {
    var c := DictValidator(v, run);
    if c.Pass? && c.value.Dict? {
      MapFromUnder(d, v, c.value.entries, AsPath(loc), 0, [], [], run);
    }
  }

  lemma {:induction false} MapFromUnder(d: FieldDesc, v: Value, entries: seq<Entry>, path: seq<Seg>, i: nat,
                                        result: seq<Entry>, errors: seq<ErrorList>, run: Runner)
    requires i <= |entries|
    requires AllUnder(errors, path)
    ensures ErrorsUnder(MapFrom(d, v, entries, path, i, result, errors, run), path)
    decreases d, 2, |entries| - i
  {
    if i < |entries| && d.keyField.Some? {
      var kat := Path(path + [KeyMarker]);
      var k := Validate(d.keyField.value, entries[i].key, kat, run);
      ValidateUnder(d.keyField.value, entries[i].key, kat, run);
      UnderChild(k, path, KeyMarker);
      if k.Returned? {
        if Truthy(k.errors) {
          AllUnderSnoc(errors, k.errors.value, path);
          MapFromUnder(d, v, entries, path, i + 1, result, errors + [k.errors.value], run);
        } else {
          var vat := Path(path + [Key(entries[i].key)]);
          var o := ValidateSingleton(d, entries[i].val, vat, run);
          SingletonUnder(d, entries[i].val, vat, run);
          UnderChild(o, path, Key(entries[i].key));
          if o.Returned? {
            if Truthy(o.errors) {
              AllUnderSnoc(errors, o.errors.value, path);
              MapFromUnder(d, v, entries, path, i + 1, result, errors + [o.errors.value], run);
            } else {
              MapFromUnder(d, v, entries, path, i + 1, Put(result, k.value, o.value), errors, run);
            }
          }
        }
      }
    }
  }

  // ------------------------------------------------------------ unions

  /** An outcome that returned errors (a failed union member or element). */
  predicate Failed(o: Outcome) {
    o.Returned? && Truthy(o.errors)
  }

  /** An outcome that returned a value without errors. */
  predicate Passed(o: Outcome) {
    o.Returned? && !Truthy(o.errors)
  }

  /** Members `i` up to `k` of a union all fail on `v`. */
  predicate MembersFail(d: FieldDesc, v: Value, loc: Loc, run: Runner, i: nat, k: nat)
    requires i <= k <= |d.subFields|
  {
    forall j :: i <= j < k ==> Failed(Validate(d.subFields[j], v, loc, run))
  }

  /** The errors of members `i` up to `k`, in member order. */
  function MemberErrors(d: FieldDesc, v: Value, loc: Loc, run: Runner, i: nat, k: nat): (r: seq<ErrorList>)
    requires i <= k <= |d.subFields| && MembersFail(d, v, loc, run, i, k)
    ensures |r| == k - i
    decreases k - i
  {
    if i == k then [] else [Validate(d.subFields[i], v, loc, run).errors.value] + MemberErrors(d, v, loc, run, i + 1, k)
  }

  /** The union loop passes over failing members, collecting their errors. */
  lemma {:induction false} UnionSkip(d: FieldDesc, v: Value, loc: Loc, run: Runner, i: nat, k: nat, errors: seq<ErrorList>)
    requires i <= k <= |d.subFields| && MembersFail(d, v, loc, run, i, k)
    ensures UnionFrom(d, i, v, loc, run, errors) == UnionFrom(d, k, v, loc, run, errors + MemberErrors(d, v, loc, run, i, k))
    decreases k - i
  {
    if i < k {
      var e := Validate(d.subFields[i], v, loc, run).errors.value;
      UnionSkip(d, v, loc, run, i + 1, k, errors + [e]);
      assert errors + [e] + MemberErrors(d, v, loc, run, i + 1, k) == errors + MemberErrors(d, v, loc, run, i, k);
    } else {
      assert errors + [] == errors;
    }
  }

  /** A union returns the value of the first member that accepts `v`, without errors. */
  lemma UnionFirstSuccess(d: FieldDesc, v: Value, loc: Loc, run: Runner, k: nat)
    requires k < |d.subFields| && MembersFail(d, v, loc, run, 0, k)
    requires Passed(Validate(d.subFields[k], v, loc, run))
    ensures ValidateSingleton(d, v, loc, run) == Returned(Validate(d.subFields[k], v, loc, run).value, None)
  {
    UnionSkip(d, v, loc, run, 0, k, []);
  }

  /**
   * A union none of whose members accepts `v` returns `v` with every
   * member's errors, in member order (`MemberErrorsAt` lists them).
   */
  lemma UnionAllFail(d: FieldDesc, v: Value, loc: Loc, run: Runner)
    requires d.subFields != [] && MembersFail(d, v, loc, run, 0, |d.subFields|)
    ensures ValidateSingleton(d, v, loc, run)
            == Returned(v, Some(Errors(MemberErrors(d, v, loc, run, 0, |d.subFields|))))
  {
    var n := |d.subFields|;
    UnionSkip(d, v, loc, run, 0, n, []);
    assert [] + MemberErrors(d, v, loc, run, 0, n) == MemberErrors(d, v, loc, run, 0, n);
  }

  /** An exception escaping a member before any member accepted `v` escapes the union. */
  lemma UnionRaises(d: FieldDesc, v: Value, loc: Loc, run: Runner, k: nat)
    requires k < |d.subFields| && MembersFail(d, v, loc, run, 0, k)
    requires Validate(d.subFields[k], v, loc, run).Raised?
    ensures ValidateSingleton(d, v, loc, run).Raised?
  {
    UnionSkip(d, v, loc, run, 0, k, []);
  }

  lemma {:induction false} MemberErrorsAt(d: FieldDesc, v: Value, loc: Loc, run: Runner, i: nat, k: nat)
    requires i <= k <= |d.subFields| && MembersFail(d, v, loc, run, i, k)
    ensures forall j :: i <= j < k ==> MemberErrors(d, v, loc, run, i, k)[j - i] == Validate(d.subFields[j], v, loc, run).errors.value
    decreases k - i
  {
    if i < k {
      MemberErrorsAt(d, v, loc, run, i + 1, k);
    }
  }

  // ------------------------------------------------------------ sequence-like shapes

  /** What validating element `j` of `v` as one item of the field gives. */
  function ItemOutcome(d: FieldDesc, v: Value, path: seq<Seg>, run: Runner, j: nat): Outcome
    requires v.Coll? && j < |v.items|
  {
    ValidateSingleton(d, v.items[j], Path(path + [Index(j)]), run)
  }

  /** No element from `i` on raises an exception that escapes the loop. */
  predicate ItemsCaught(d: FieldDesc, v: Value, path: seq<Seg>, run: Runner, i: nat)
    requires v.Coll? && i <= |v.items|
  {
    forall j :: i <= j < |v.items| ==> ItemOutcome(d, v, path, run, j).Returned?
  }

  /** The validated elements from `i` on that passed, in order. */
  function ItemValues(d: FieldDesc, v: Value, path: seq<Seg>, run: Runner, i: nat): seq<Value>
    requires v.Coll? && i <= |v.items|
    decreases |v.items| - i
  {
    if i == |v.items| then []
    else
      var o := ItemOutcome(d, v, path, run, i);
      (if Passed(o) then [o.value] else []) + ItemValues(d, v, path, run, i + 1)
  }

  /** The errors of the elements from `i` on that failed, in order. */
  function ItemErrors(d: FieldDesc, v: Value, path: seq<Seg>, run: Runner, i: nat): seq<ErrorList>
    requires v.Coll? && i <= |v.items|
    decreases |v.items| - i
  {
    if i == |v.items| then []
    else
      var o := ItemOutcome(d, v, path, run, i);
      (if Failed(o) then [o.errors.value] else []) + ItemErrors(d, v, path, run, i + 1)
  }

  /** The element loop from `i` on adds the passing values and the failing errors, in order. */
  lemma {:induction false} SeqSkip(d: FieldDesc, v: Value, path: seq<Seg>, i: nat,
                                   result: seq<Value>, errors: seq<ErrorList>, run: Runner)
    requires v.Coll? && i <= |v.items| && ItemsCaught(d, v, path, run, i)
    ensures SeqFrom(d, v, path, i, result, errors, run)
            == SeqFrom(d, v, path, |v.items|, result + ItemValues(d, v, path, run, i),
                       errors + ItemErrors(d, v, path, run, i), run)
    decreases |v.items| - i
  {
    if i < |v.items| {
      var o := ItemOutcome(d, v, path, run, i);
      if Failed(o) {
        SeqSkip(d, v, path, i + 1, result, errors + [o.errors.value], run);
        assert errors + [o.errors.value] + ItemErrors(d, v, path, run, i + 1) == errors + ItemErrors(d, v, path, run, i);
        assert result + ItemValues(d, v, path, run, i + 1) == result + ItemValues(d, v, path, run, i);
      } else {
        SeqSkip(d, v, path, i + 1, result + [o.value], errors, run);
        assert result + [o.value] + ItemValues(d, v, path, run, i + 1) == result + ItemValues(d, v, path, run, i);
        assert errors + ItemErrors(d, v, path, run, i + 1) == errors + ItemErrors(d, v, path, run, i);
      }
    } else {
      assert result + [] == result && errors + [] == errors;
    }
  }

  /**
   * A sequence-like field validates every element; with any failure it
   * returns the input and the failing elements' errors in order, otherwise
   * the passing values converted to the container its shape asks for.
   */
  lemma SequenceLikeResult(d: FieldDesc, v: Value, loc: Loc, run: Runner)
    requires v.Coll? && ItemsCaught(d, v, AsPath(loc), run, 0)
    ensures var path := AsPath(loc);
            var errs := ItemErrors(d, v, path, run, 0);
            ValidateSequenceLike(d, v, loc, run)
            == if errs != [] then Returned(v, Some(Errors(errs)))
               else Returned(Convert(d.shape, v, ItemValues(d, v, path, run, 0)), None)
  {
    SeqSkip(d, v, AsPath(loc), 0, [], [], run);
    assert [] + ItemValues(d, v, AsPath(loc), run, 0) == ItemValues(d, v, AsPath(loc), run, 0);
    assert [] + ItemErrors(d, v, AsPath(loc), run, 0) == ItemErrors(d, v, AsPath(loc), run, 0);
  }

  /** An element whose validation escapes makes the whole field's validation escape. */
  lemma {:induction false} SequenceLikeRaises(d: FieldDesc, v: Value, path: seq<Seg>, i: nat,
                                              result: seq<Value>, errors: seq<ErrorList>, run: Runner, k: nat)
    requires v.Coll? && i <= k < |v.items| && ItemOutcome(d, v, path, run, k).Raised?
    ensures SeqFrom(d, v, path, i, result, errors, run).Raised?
    decreases |v.items| - i
  {
    if i < k {
      var o := ItemOutcome(d, v, path, run, i);
      if o.Returned? {
        if Truthy(o.errors) {
          SequenceLikeRaises(d, v, path, i + 1, result, errors + [o.errors.value], run, k);
        } else {
          SequenceLikeRaises(d, v, path, i + 1, result + [o.value], errors, run, k);
        }
      }
    }
  }

  /** With no failing element, every element contributes its validated value, in order. */
  lemma {:induction false} ItemValuesAll(d: FieldDesc, v: Value, path: seq<Seg>, run: Runner, i: nat)
    requires v.Coll? && i <= |v.items| && ItemsCaught(d, v, path, run, i) && ItemErrors(d, v, path, run, i) == []
    ensures |ItemValues(d, v, path, run, i)| == |v.items| - i
    ensures forall j :: i <= j < |v.items| ==> ItemValues(d, v, path, run, i)[j - i] == ItemOutcome(d, v, path, run, j).value
    decreases |v.items| - i
  {
    if i < |v.items| {
      var o := ItemOutcome(d, v, path, run, i);
      assert !Failed(o);
      ItemValuesAll(d, v, path, run, i + 1);
    }
  }

  /**
   * A list field whose elements all pass returns a list of the same length
   * holding each element's validated value at its position.
   */
  lemma ListKeepsLength(d: FieldDesc, v: Value, loc: Loc, run: Runner)
    requires d.shape == ListShape && v.Coll? && ItemsCaught(d, v, AsPath(loc), run, 0)
    requires ItemErrors(d, v, AsPath(loc), run, 0) == []
    ensures var r := ValidateSequenceLike(d, v, loc, run);
            r.Returned? && r.errors.None? && r.value.Coll? && r.value.kind == ListKind
            && |r.value.items| == |v.items|
            && forall j :: 0 <= j < |v.items| ==> r.value.items[j] == ItemOutcome(d, v, AsPath(loc), run, j).value
  {
    SequenceLikeResult(d, v, loc, run);
    ItemValuesAll(d, v, AsPath(loc), run, 0);
  }

  /**
   * A set field's result holds exactly the validated values, each once: it is
   * smaller than the input when two elements validate to the same value.
   */
  lemma SetDeduplicates(d: FieldDesc, v: Value, loc: Loc, run: Runner)
    requires d.shape == SetShape && v.Coll? && ItemsCaught(d, v, AsPath(loc), run, 0)
    requires ItemErrors(d, v, AsPath(loc), run, 0) == []
    ensures var r := ValidateSequenceLike(d, v, loc, run);
            r.Returned? && r.errors.None? && r.value.Coll? && r.value.kind == SetKind
            && |r.value.items| <= |v.items| && Distinct(r.value.items)
            && forall j :: 0 <= j < |v.items| ==> ItemOutcome(d, v, AsPath(loc), run, j).value in r.value.items
  {
    SequenceLikeResult(d, v, loc, run);
    ItemValuesAll(d, v, AsPath(loc), run, 0);
    var vals := ItemValues(d, v, AsPath(loc), run, 0);
    forall j | 0 <= j < |v.items|
      ensures ItemOutcome(d, v, AsPath(loc), run, j).value in Dedup(vals)
    {
      assert vals[j] == ItemOutcome(d, v, AsPath(loc), run, j).value;
    }
  }

  /** A set of two equal numbers, validated by an empty chain, comes back with one element. */
  lemma SetOfDuplicatesShrinks(run: Runner)
    ensures var d := FieldDesc("s", SetT(AnyType), SetShape, true, false, false, false, [], [], None, [], [], []);
            var r := ValidateSequenceLike(d, Coll(ListKind, [Int(1), Int(1)]), Name("s"), run);
            r == Returned(Coll(SetKind, [Int(1)]), None)
  {
    var d := FieldDesc("s", SetT(AnyType), SetShape, true, false, false, false, [], [], None, [], [], []);
    var v := Coll(ListKind, [Int(1), Int(1)]);
    SequenceLikeResult(d, v, Name("s"), run);
    var vals := ItemValues(d, v, AsPath(Name("s")), run, 0);
    assert ItemValues(d, v, AsPath(Name("s")), run, 2) == [];
    assert vals == [Int(1), Int(1)];
    assert Dedup([Int(1)]) == [Int(1)];
    assert [Int(1), Int(1)][..1] == [Int(1)];
  }

  // ------------------------------------------------------------ tuples

  /** What validating position `j` of `v` with the `j`-th sub-field gives. */
  function PositionOutcome(d: FieldDesc, v: Value, path: seq<Seg>, run: Runner, j: nat): Outcome
    requires v.Coll? && |v.items| == |d.subFields| && j < |v.items|
  {
    Validate(d.subFields[j], v.items[j], Path(path + [Index(j)]), run)
  }

  /** No position from `i` on raises an exception that escapes the loop. */
  predicate PositionsCaught(d: FieldDesc, v: Value, path: seq<Seg>, run: Runner, i: nat)
    requires v.Coll? && |v.items| == |d.subFields| && i <= |v.items|
  {
    forall j :: i <= j < |v.items| ==> PositionOutcome(d, v, path, run, j).Returned?
  }

  /** The validated values of the positions from `i` on that passed, in order. */
  function PositionValues(d: FieldDesc, v: Value, path: seq<Seg>, run: Runner, i: nat): seq<Value>
    requires v.Coll? && |v.items| == |d.subFields| && i <= |v.items|
    decreases |v.items| - i
  {
    if i == |v.items| then []
    else
      var o := PositionOutcome(d, v, path, run, i);
      (if Passed(o) then [o.value] else []) + PositionValues(d, v, path, run, i + 1)
  }

  /** The errors of the positions from `i` on that failed, in order. */
  function PositionErrors(d: FieldDesc, v: Value, path: seq<Seg>, run: Runner, i: nat): seq<ErrorList>
    requires v.Coll? && |v.items| == |d.subFields| && i <= |v.items|
    decreases |v.items| - i
  {
    if i == |v.items| then []
    else
      var o := PositionOutcome(d, v, path, run, i);
      (if Failed(o) then [o.errors.value] else []) + PositionErrors(d, v, path, run, i + 1)
  }

  /** The position loop from `i` on adds the passing values and the failing errors, in order. */
  lemma {:induction false} TupleSkip(d: FieldDesc, v: Value, path: seq<Seg>, i: nat,
                                     result: seq<Value>, errors: seq<ErrorList>, run: Runner)
    requires v.Coll? && |v.items| == |d.subFields| && i <= |v.items| && PositionsCaught(d, v, path, run, i)
    ensures TupleFrom(d, v, path, i, result, errors, run)
            == TupleFrom(d, v, path, |v.items|, result + PositionValues(d, v, path, run, i),
                         errors + PositionErrors(d, v, path, run, i), run)
    decreases |v.items| - i
  {
    if i < |v.items| {
      var o := PositionOutcome(d, v, path, run, i);
      if Failed(o) {
        TupleSkip(d, v, path, i + 1, result, errors + [o.errors.value], run);
        assert errors + [o.errors.value] + PositionErrors(d, v, path, run, i + 1) == errors + PositionErrors(d, v, path, run, i);
        assert result + PositionValues(d, v, path, run, i + 1) == result + PositionValues(d, v, path, run, i);
      } else {
        TupleSkip(d, v, path, i + 1, result + [o.value], errors, run);
        assert result + [o.value] + PositionValues(d, v, path, run, i + 1) == result + PositionValues(d, v, path, run, i);
        assert errors + PositionErrors(d, v, path, run, i + 1) == errors + PositionErrors(d, v, path, run, i);
      }
    } else {
      assert result + [] == result && errors + [] == errors;
    }
  }

  /**
   * A fixed-length tuple field: a non-sequence is a `TupleError`, a
   * generator escapes, a length other than the number of sub-fields is a
   * `TupleLengthError`; otherwise each position is validated by its own
   * sub-field and the failing positions' errors, or the tuple of the
   * validated values, come back.
   */
  lemma TupleResult(d: FieldDesc, v: Value, loc: Loc, run: Runner)
    requires v.Coll? && v.kind != GeneratorKind && |v.items| == |d.subFields| ==> PositionsCaught(d, v, AsPath(loc), run, 0)
    ensures ValidateTuple(d, v, loc, run)
            == if !v.Coll? then Returned(v, Some(Wrapper(TupleError, loc)))
               else if v.kind == GeneratorKind then Raised
               else if |v.items| != |d.subFields| then Returned(v, Some(Wrapper(TupleLengthError(|v.items|, |d.subFields|), loc)))
               else if PositionErrors(d, v, AsPath(loc), run, 0) != [] then
                 Returned(v, Some(Errors(PositionErrors(d, v, AsPath(loc), run, 0))))
               else Returned(Coll(TupleKind, PositionValues(d, v, AsPath(loc), run, 0)), None)
  {
    if v.Coll? && v.kind != GeneratorKind && |v.items| == |d.subFields| {
      TupleSkip(d, v, AsPath(loc), 0, [], [], run);
      assert [] + PositionValues(d, v, AsPath(loc), run, 0) == PositionValues(d, v, AsPath(loc), run, 0);
      assert [] + PositionErrors(d, v, AsPath(loc), run, 0) == PositionErrors(d, v, AsPath(loc), run, 0);
    }
  }

  /** With no failing position, the result has one validated value per sub-field, in order. */
  lemma {:induction false} PositionValuesAll(d: FieldDesc, v: Value, path: seq<Seg>, run: Runner, i: nat)
    requires v.Coll? && |v.items| == |d.subFields| && i <= |v.items|
    requires PositionsCaught(d, v, path, run, i) && PositionErrors(d, v, path, run, i) == []
    ensures |PositionValues(d, v, path, run, i)| == |d.subFields| - i
    ensures forall j :: i <= j < |v.items| ==> PositionValues(d, v, path, run, i)[j - i] == PositionOutcome(d, v, path, run, j).value
    decreases |v.items| - i
  {
    if i < |v.items| {
      var o := PositionOutcome(d, v, path, run, i);
      assert !Failed(o);
      PositionValuesAll(d, v, path, run, i + 1);
    }
  }

  // ------------------------------------------------------------ mappings

  /** What validating one entry gives: its key first, then, if the key passed, its value. */
  datatype EntryOutcome = EntryRaised | EntryFailed(errors: ErrorList) | EntryOk(entry: Entry)

  function EntryStep(d: FieldDesc, e: Entry, path: seq<Seg>, run: Runner): EntryOutcome
    requires d.keyField.Some?
  {
    match Validate(d.keyField.value, e.key, Path(path + [KeyMarker]), run)
    case Raised => EntryRaised
    case Returned(kr, ke) =>
      if Truthy(ke) then EntryFailed(ke.value)
      else
        match ValidateSingleton(d, e.val, Path(path + [Key(e.key)]), run)
        case Raised => EntryRaised
        case Returned(vr, ve) => if Truthy(ve) then EntryFailed(ve.value) else EntryOk(Entry(kr, vr))
  }

  /** No entry from `i` on raises an exception that escapes the loop. */
  predicate EntriesCaught(d: FieldDesc, entries: seq<Entry>, path: seq<Seg>, run: Runner, i: nat)
    requires d.keyField.Some? && i <= |entries|
  {
    forall j :: i <= j < |entries| ==> !EntryStep(d, entries[j], path, run).EntryRaised?
  }

  /** The validated `(key, value)` pairs of the entries from `i` on that passed, in order. */
  function OkEntries(d: FieldDesc, entries: seq<Entry>, path: seq<Seg>, run: Runner, i: nat): seq<Entry>
    requires d.keyField.Some? && i <= |entries|
    decreases |entries| - i
  {
    if i == |entries| then []
    else
      var o := EntryStep(d, entries[i], path, run);
      (if o.EntryOk? then [o.entry] else []) + OkEntries(d, entries, path, run, i + 1)
  }

  /** The errors of the entries from `i` on that failed, in order. */
  function EntryErrors(d: FieldDesc, entries: seq<Entry>, path: seq<Seg>, run: Runner, i: nat): seq<ErrorList>
    requires d.keyField.Some? && i <= |entries|
    decreases |entries| - i
  {
    if i == |entries| then []
    else
      var o := EntryStep(d, entries[i], path, run);
      (if o.EntryFailed? then [o.errors] else []) + EntryErrors(d, entries, path, run, i + 1)
  }

  /** `for k, v in pairs: result[k] = v`. */
  function PutAll(acc: seq<Entry>, pairs: seq<Entry>): seq<Entry>
    decreases |pairs|
  {
    if pairs == [] then acc else PutAll(Put(acc, pairs[0].key, pairs[0].val), pairs[1..])
  }

  /** The value of the last pair with key `k`, if any. */
  function LastValue(pairs: seq<Entry>, k: Value): Option<Value>
    decreases |pairs|
  {
    if pairs == [] then None
    else
      var later := LastValue(pairs[1..], k);
      if later.Some? then later else if pairs[0].key == k then Some(pairs[0].val) else None
  }

  /** After putting all pairs, a key holds the value of its last pair; other keys keep theirs. */
  lemma {:induction false} PutAllGet(acc: seq<Entry>, pairs: seq<Entry>, k: Value)
    ensures Get(PutAll(acc, pairs), k) == if LastValue(pairs, k).Some? then LastValue(pairs, k) else Get(acc, k)
    decreases |pairs|
  {
    if pairs != [] {
      PutAllGet(Put(acc, pairs[0].key, pairs[0].val), pairs[1..], k);
    }
  }

  /** The entry loop from `i` on puts the passing pairs, in order, and adds the failing errors, in order. */
  lemma {:induction false} MapSkip(d: FieldDesc, v: Value, entries: seq<Entry>, path: seq<Seg>, i: nat,
                                   result: seq<Entry>, errors: seq<ErrorList>, run: Runner)
    requires d.keyField.Some? && i <= |entries| && EntriesCaught(d, entries, path, run, i)
    ensures MapFrom(d, v, entries, path, i, result, errors, run)
            == MapFrom(d, v, entries, path, |entries|, PutAll(result, OkEntries(d, entries, path, run, i)),
                       errors + EntryErrors(d, entries, path, run, i), run)
    decreases |entries| - i
  {
    if i < |entries| {
      var o := EntryStep(d, entries[i], path, run);
      MapStep(d, v, entries, path, i, result, errors, run);
      var result' := if o.EntryOk? then Put(result, o.entry.key, o.entry.val) else result;
      var errors' := if o.EntryFailed? then errors + [o.errors] else errors;
      MapSkip(d, v, entries, path, i + 1, result', errors', run);
      MapAccumulate(d, entries, path, run, i, result, errors);
    } else {
      assert errors + [] == errors;
    }
  }

  /** Putting entry `i` and then the pairs after it is putting the pairs from `i`; likewise for the errors. */
  lemma MapAccumulate(d: FieldDesc, entries: seq<Entry>, path: seq<Seg>, run: Runner, i: nat,
                      result: seq<Entry>, errors: seq<ErrorList>)
    requires d.keyField.Some? && i < |entries| && !EntryStep(d, entries[i], path, run).EntryRaised?
    ensures var o := EntryStep(d, entries[i], path, run);
            var result' := if o.EntryOk? then Put(result, o.entry.key, o.entry.val) else result;
            var errors' := if o.EntryFailed? then errors + [o.errors] else errors;
            PutAll(result', OkEntries(d, entries, path, run, i + 1)) == PutAll(result, OkEntries(d, entries, path, run, i))
            && errors' + EntryErrors(d, entries, path, run, i + 1) == errors + EntryErrors(d, entries, path, run, i)
  {
    var o := EntryStep(d, entries[i], path, run);
    var oks := OkEntries(d, entries, path, run, i + 1);
    if o.EntryOk? {
      assert OkEntries(d, entries, path, run, i) == [o.entry] + oks;
      assert ([o.entry] + oks)[1..] == oks;
      assert EntryErrors(d, entries, path, run, i) == EntryErrors(d, entries, path, run, i + 1);
    } else {
      assert OkEntries(d, entries, path, run, i) == oks;
      assert errors + [o.errors] + EntryErrors(d, entries, path, run, i + 1) == errors + EntryErrors(d, entries, path, run, i);
    }
  }

  /** One entry of the loop, as `EntryStep` describes it. */
  lemma MapStep(d: FieldDesc, v: Value, entries: seq<Entry>, path: seq<Seg>, i: nat,
                result: seq<Entry>, errors: seq<ErrorList>, run: Runner)
    requires d.keyField.Some? && i < |entries|
    ensures var o := EntryStep(d, entries[i], path, run);
            MapFrom(d, v, entries, path, i, result, errors, run)
            == match o
               case EntryRaised => Raised
               case EntryFailed(e) => MapFrom(d, v, entries, path, i + 1, result, errors + [e], run)
               case EntryOk(p) => MapFrom(d, v, entries, path, i + 1, Put(result, p.key, p.val), errors, run)
  {
  }

  /**
   * A mapping field: a dict, or what the coercion of a non-dict yields, has
   * every entry validated, and the failing entries' errors, or the dict of
   * validated pairs, come back; a coercion rejected with `e` gives one error `e`.
   */
  lemma MappingResult(d: FieldDesc, v: Value, loc: Loc, run: Runner)
    requires d.keyField.Some?
    requires DictValidator(v, run).Pass? && DictValidator(v, run).value.Dict?
             ==> EntriesCaught(d, DictValidator(v, run).value.entries, AsPath(loc), run, 0)
    ensures var c := DictValidator(v, run);
            ValidateMapping(d, v, loc, run)
            == if c.Reject? then Returned(v, Some(Wrapper(c.exc, loc)))
               else if c.Crash? || !c.value.Dict? then Raised
               else if EntryErrors(d, c.value.entries, AsPath(loc), run, 0) != [] then
                 Returned(v, Some(Errors(EntryErrors(d, c.value.entries, AsPath(loc), run, 0))))
               else Returned(Dict(PutAll([], OkEntries(d, c.value.entries, AsPath(loc), run, 0))), None)
  {
    var c := DictValidator(v, run);
    if c.Pass? && c.value.Dict? {
      var es := c.value.entries;
      MapSkip(d, v, es, AsPath(loc), 0, [], [], run);
      assert [] + EntryErrors(d, es, AsPath(loc), run, 0) == EntryErrors(d, es, AsPath(loc), run, 0);
    }
  }

  /**
   * When several input keys validate to the same key, the value of the last
   * of them is the one kept.
   */
  lemma LaterKeyWins(d: FieldDesc, v: Value, loc: Loc, run: Runner, k: Value)
    requires d.keyField.Some? && v.Dict? && EntriesCaught(d, v.entries, AsPath(loc), run, 0)
    requires EntryErrors(d, v.entries, AsPath(loc), run, 0) == []
    ensures var r := ValidateMapping(d, v, loc, run);
            r.Returned? && r.errors.None? && r.value.Dict?
            && Get(r.value.entries, k) == LastValue(OkEntries(d, v.entries, AsPath(loc), run, 0), k)
  {
    MappingResult(d, v, loc, run);
    PutAllGet([], OkEntries(d, v.entries, AsPath(loc), run, 0), k);
  }

  /** A mapping field without a key field escapes on the first entry of a non-empty dict. */
  lemma MappingWithoutKeyField(d: FieldDesc, entries: seq<Entry>, loc: Loc, run: Runner)
    requires d.keyField.None? && entries != []
    ensures ValidateMapping(d, Dict(entries), loc, run) == Raised
  {
  }

  /**
   * The errors of an entry's key are filed under `'__key__'`, those of its
   * value under the key as given, not as validated.
   */
  lemma EntryErrorsFiled(d: FieldDesc, e: Entry, path: seq<Seg>, run: Runner)
    requires d.keyField.Some?
    ensures var k := Validate(d.keyField.value, e.key, Path(path + [KeyMarker]), run);
            EntryStep(d, e, path, run).EntryFailed? ==>
              if Failed(k) then Under(EntryStep(d, e, path, run).errors, path + [KeyMarker])
              else Under(EntryStep(d, e, path, run).errors, path + [Key(e.key)])
  {
    ValidateUnder(d.keyField.value, e.key, Path(path + [KeyMarker]), run);
    SingletonUnder(d, e.val, Path(path + [Key(e.key)]), run);
  }

  // ------------------------------------------------------------ the steps of validate

  /** Failing pre-validators end validation with their error; nothing else of the field is consulted. */
  lemma PreFailureStops(d: FieldDesc, v: Value, loc: Loc, run: Runner,
                        shape: Shape, subs: seq<FieldDesc>, chain: seq<Validator>, post: seq<Validator>, allowNone: bool)
    requires Failed(ApplyValidators(d.preValidators, v, loc, run))
    ensures var pre := ApplyValidators(d.preValidators, v, loc, run);
            Validate(d, v, loc, run) == pre
            && Validate(d.(shape := shape, subFields := subs, validators := chain, postValidators := post,
                           allowNone := allowNone), v, loc, run) == pre
  {
  }

  /**
   * Once the pre-validators have passed a value other than `None`,
   * post-validators run on the shape's result only when it has no errors;
   * errors from the shape are returned as they are.
   */
  lemma PostOnlyOnSuccess(d: FieldDesc, v: Value, loc: Loc, run: Runner)
    requires var p := ApplyValidators(d.preValidators, v, loc, run); Passed(p) && p.value != NoneV
    ensures var s := Dispatch(d, ApplyValidators(d.preValidators, v, loc, run).value, loc, run);
            Validate(d, v, loc, run)
            == if Passed(s) && d.postValidators != [] then ApplyValidators(d.postValidators, s.value, loc, run) else s
  {
  }

  /**
   * `None`, as given or as the pre-validators leave it, never reaches the
   * shape: it is accepted, and handed to the post-validators, when the field
   * allows it, and is a `NoneIsNotAllowed` error otherwise.
   */
  lemma NoneHandling(d: FieldDesc, v: Value, loc: Loc, run: Runner)
    requires var p := ApplyValidators(d.preValidators, v, loc, run); Passed(p) && p.value == NoneV
    ensures Validate(d, v, loc, run)
            == if !d.allowNone then Returned(NoneV, Some(Wrapper(NoneIsNotAllowed, loc)))
               else if d.postValidators == [] then Returned(NoneV, None)
               else ApplyValidators(d.postValidators, NoneV, loc, run)
  {
  }

  // ------------------------------------------------------------ Optional[T]

  /**
   * A field declared `Optional[T]` is not required and allows `None`; when
   * no validators are attached to it as a whole, `None` validates to itself
   * without errors.
   */
  lemma OptionalAcceptsNone(cfg: Config, name: string, t: Type, loc: Loc, run: Runner)
    ensures var r := Prepare(cfg, name, Some(Union([t, NoneType])), [], NoneV, true, false);
            r.Success? ==>
              !r.value.required && r.value.allowNone
              && (r.value.preValidators == [] && r.value.postValidators == [] ==>
                    Validate(r.value, NoneV, loc, run) == Returned(NoneV, None))
  {
    var args := [t, NoneType];
    var u := Union(args);
    var d := Initial(name, u, [], true).(validateAlways := ValidateAlwaysAttr(u) || AnyAlways([]), allowNone := false);
    assert Analyse(cfg, d) == AnalyseUnion(cfg, d, args);
    OptionalUnion(cfg, d, args);
  }

  /** A union with a `NoneType` member leaves the field not required and allowing `None`. */
  lemma OptionalUnion(cfg: Config, d: FieldDesc, args: seq<Type>)
    requires NoneType in args
    ensures var r := AnalyseUnion(cfg, d, args);
            r.Success? ==> !r.value.required && r.value.allowNone
  {
    var members := NonNone(args);
    var d' := d.(required := false, allowNone := true);
    if |members| == 1 {
      SizeMember(members, 0);
      AnalysisProperties.AnalyseOk(cfg, d'.(typ := members[0]));
    }
  }

  /** A required field of a plain class type, with no class validators, rejects `None`. */
  lemma RequiredRejectsNone(cfg: Config, name: string, t: Type, loc: Loc, run: Runner)
    requires t.Class?
    ensures var r := Prepare(cfg, name, Some(t), [], NoneV, true, false);
            r.Success? && Validate(r.value, NoneV, loc, run) == Returned(NoneV, Some(Wrapper(NoneIsNotAllowed, loc)))
  {
    var d := Initial(name, t, [], true).(validateAlways := ValidateAlwaysAttr(t) || AnyAlways([]), allowNone := false);
    assert Analyse(cfg, d) == Success(d);
  }
}
