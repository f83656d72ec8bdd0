# pydantic fields and constrained types, in Dafny

This project models two parts of pydantic (the 0.x/1.0-era code base):

- **The `Field` validation engine** of `pydantic/fields.py`.
  - `prepare`, `_type_analysis` and `_create_sub_type` classify a field's type into a shape: singleton, list, set, frozenset, tuple, variadic tuple, sequence or mapping. They also build the field's sub-fields and key field.
  - `_populate_validators` assembles the three validator chains.
  - `validate` and its helpers walk an input value, thread it through those chains and collect errors tagged with their locations.
- **The constrained-type checks** of `pydantic/types.py`:
  - the bound-conflict rule of constrained numbers;
  - `conlist` length bounds;
  - `constr` curtailing and regex;
  - `StrictBool`;
  - the digit layout of `condecimal`;
  - `SecretStr`/`SecretBytes`;
  - the `PaymentCardNumber` pipeline: digits, Luhn check digit, brand and length for brand.
  - The validator chains these types yield, run through the engine.

Modules:

| file | module | what it holds |
|---|---|---|
| `wrappers.dfy` | `Wrappers` | `Option` and `Result` |
| `values.dfy` | `Values` | Python values as the engine sees them: `None`, scalars, list/tuple/set/frozenset/generator, dict as an ordered entry list |
| `typedesc.dfy` | `TypeDescriptors` | a closed datatype of type hints, in place of `typing` introspection; validators; class validators; shapes; the configuration (`find_validators`, `display_as_type`) |
| `errors.dfy` | `Errors` | error locations, the exception kinds the model raises, and `ErrorWrapper`/error lists |
| `analysis.dfy` | `Analysis` | field preparation as functions over `FieldDesc`, the field's slots as a value |
| `validation.dfy` | `Validation` | `validate` and its helpers as functions over a prepared field; a validator is interpreted by a `Runner` parameter |
| `fields.dfy` | `Fields` | the `Field` class itself: slots updated in place by `Prepare`, loops in the `Validate*` methods, each proved to reach exactly what the functions above compute |
| `analysis_props.dfy`, `validation_props.dfy` | `AnalysisProperties`, `ValidationProperties` | what preparation and validation guarantee |
| `constrained.dfy` | `ConstrainedTypes` | number bounds, list length, string curtail/regex, strict bool, decimal layout |
| `payment_card.dfy` | `PaymentCards` | the payment-card checks and the `PaymentCardNumber` class |
| `secrets.dfy` | `Secrets` | the `SecretStr` and `SecretBytes` classes |
| `type_chains.dfy` | `TypeChains` | the `__get_validators__` chains of the constrained types, and what a field of each type returns |

How validators are modelled:
- A validator is an identifier. Its behaviour is a function `Runner` passed to validation.
- A validator can return a value (`Pass`), raise `ValueError`/`TypeError`/`AssertionError` (`Reject`, caught by `_apply_validators`), or raise anything else (`Crash`).
- A `Crash` escapes the engine and gives the outcome `Raised`.
- Where a type's chain ends in a check this project models (the payment-card checks as pydantic writes them, `ConstrainedStr.validate`, `StrictBool.validate`, `list_length_validator`), `TypeChains` ties the `Runner` to that check and proves the whole field's result. For `list_length_validator`, both outcomes are proved: a failing length check is the field's result (`TypeChains.ConstrainedListField`), and a passing one hands the input to sequence validation (`TypeChains.ConstrainedListFieldPasses`).
- `dict_validator` takes a dict as it is. Any other value goes to the `Runner` as the `DictCoerce` step (Python's `dict(v)`): its `Reject` is the `TypeError` that `_validate_mapping` catches, and a `Crash` escapes.

Where pydantic's documented intent and its code differ, the model follows the code:
- **Regex match.** `ConstrainedStr.validate` uses `regex.match`, which anchors only at the start (a prefix match, `ConstrainedTypes.MatchesAtStart`). It is not a full match.
- **Curtail length 0.** A `curtail_length` of 0 is falsy, so it never curtails.
- **Brand length.** The brand-length condition `brand is (visa or mastercard)` evaluates the parenthesis to `visa`, because an enum member is truthy. Only Visa is held to 16 digits.
- **Luhn sum.** The Luhn loop adds each doubled digit whole. It does not take the digit sum of doubled values above 9.

The last two are real defects. `## Findings` models them both as written and corrected. The payment-card chain (`PaymentCards.PaymentCardNumber.Validate`, `TypeChains.CardChecks`, `TypeChains.PaymentCardField`) runs the checks as written. `PaymentCards.PaymentCardNumber.ValidateCorrected` runs the corrected ones.

Other behaviours of the code that the model keeps:
- `Optional[conlist(...)]` given `None` fails with `NoLenError`. `ConstrainedList`'s validator is registered as a `pre` class validator, so it runs before the `None` check, and `len(None)` raises `TypeError`.
- `DecimalWholeDigitsError` carries the expected whole-digit count `max_digits - decimal_places`, not the actual count.
- Set outputs are deduplicated and may be smaller than the input.
- In a mapping, two keys that validate to the same key collapse, and the later value wins.

## Model

| member | source | states |
|---|---|---|
| Fields.Field.ApplyValidators | pydantic/fields.py:468-476 | the loop over the chain returns exactly the outcome of `Validation.ApplyValidators`: the value threaded in order, the first caught exception stopping it with one error at `loc` |
| Fields.Field.Validate | pydantic/fields.py:310-341 | validating with the field's slots returns exactly `Validation.Validate` of its description: pre-validators, the `None` check, dispatch on shape, post-validators |
| Fields.Field.ValidateSingleton | pydantic/fields.py:453-466 | the loop over union sub-fields returns the first success or all member errors, as `Validation.ValidateSingleton` |
| Fields.Field.ValidateSequenceLike | pydantic/fields.py:343-392 | the element loop collects every error with no early exit and converts the result by shape, as `Validation.ValidateSequenceLike` |
| Fields.Field.ValidateTuple | pydantic/fields.py:394-422 | the positional loop validates position i with sub-field i, as `Validation.ValidateTuple` |
| Fields.Field.ValidateMapping | pydantic/fields.py:424-451 | the entry loop validates the key, then the value, and fills the result dict, as `Validation.ValidateMapping` |
| Fields.Field.constructor | pydantic/fields.py:83-114 | `__init__` stores name, type, class validators, default and required, and leaves the rest at their initial values |
| Fields.Field.New | pydantic/fields.py:83-115 | constructing a field succeeds exactly when `Analysis.Prepare` does, with the same error otherwise, and the new field's slots are the prepared description |
| Fields.Field.Prepare | pydantic/fields.py:161-181 | `prepare` fails exactly as `Analysis.Prepare` (missing type, unsupported origin, with a validator registry that does not raise) and otherwise leaves the slots equal to its result |
| Fields.Field.PrepareKnownType | pydantic/fields.py:173-181 | with a known type: sets `validate_always` and `allow_none`, then analyses and populates, as the specification functions do |
| Fields.Field.AnalyseAndPopulate | pydantic/fields.py:180-181 | `_type_analysis` followed by `_populate_validators` yields `Populate(Analyse(..))` |
| Fields.Field.TypeAnalysis | pydantic/fields.py:183-269 | `_type_analysis` on the slots succeeds or fails exactly as `Analysis.Analyse` |
| Fields.Field.UnwrapJson | pydantic/fields.py:185-190 | a `Json[T]` or `Json` field gets type `T`/`Any` and the `parse_json` flag |
| Fields.Field.AnalyseUnwrapped | pydantic/fields.py:192-266 | the dispatch on pattern, literal, origin, union, tuple and containers, as `Analysis.AnalyseUnwrapped` |
| Fields.Field.AnalyseContainer | pydantic/fields.py:235-269 | the container branches, as `Analysis.AnalyseContainer` |
| Fields.Field.AnalyseList | pydantic/fields.py:235-247 | a list type's own validators are added as `list_i` class validators (pre, always), the type becomes the element type and the shape LIST |
| Fields.Field.AnalyseCollection | pydantic/fields.py:248-256 | set, frozenset and sequence: element type and shape, then the element sub-field |
| Fields.Field.AnalyseMapping | pydantic/fields.py:257-262 | a mapping gets a key field `key_<name>` without class validators, the value type and shape MAPPING |
| Fields.Field.AddKeyAndValue | pydantic/fields.py:258-269 | attaching the key field and the value sub-field gives `WithElement` of the mapping description |
| Fields.Field.AnalyseUnion | pydantic/fields.py:207-222 | union analysis on the slots, as `Analysis.AnalyseUnion` |
| Fields.Field.CollectMembers | pydantic/fields.py:208-214 | the loop drops `NoneType` members and, if one was present, makes the field optional and `None`-accepting |
| Fields.Field.AddMemberFields | pydantic/fields.py:221 | one sub-field per remaining member, named `<name>_<display_as_type>`, or the first preparation error |
| Fields.Field.CreateMemberFields | pydantic/fields.py:221 | the loop creating member sub-fields produces exactly `PrepareAll` of the members |
| Fields.Field.AnalyseTuple | pydantic/fields.py:224-233 | tuple analysis on the slots, as `Analysis.AnalyseTuple` |
| Fields.Field.CreatePositionFields | pydantic/fields.py:226-232 | the positional loop creates `<name>_<i>` sub-fields up to the first `Ellipsis`, and stops early exactly when there is one |
| Fields.Field.AddElementField | pydantic/fields.py:268-269 | the single element sub-field `_<name>` |
| Fields.Field.CreateSubType | pydantic/fields.py:271-277 | a sub-field is a new prepared field with the `each_item` class validators, or none for a key field |
| Fields.Field.PopulateValidators | pydantic/fields.py:279-304 | the three chains are set to `Analysis.Populate` of the slots |
| Analysis.NonNone | pydantic/fields.py:208-214 | the union members kept are exactly the members other than `NoneType` |
| Analysis.LiteralMembers | pydantic/fields.py:195-198 | a multi-valued `Literal` becomes a union of one single-valued `Literal` per value, in order |
| Analysis.FirstEllipsis | pydantic/fields.py:227-231 | the position where the tuple loop stops: no `Ellipsis` before it, and an `Ellipsis` at it unless it is the end |
| Analysis.EachItem | pydantic/fields.py:275 | a sub-field inherits exactly the class validators with `each_item` set: a validator is inherited if and only if it is one of the field's and has `each_item` |
| AnalysisProperties.PrepareOk | pydantic/fields.py:161-181 | a prepared field keeps its name; once a type is known, the only preparation error is an unsupported origin, given a validator registry that does not raise |
| AnalysisProperties.PrepareUntyped | pydantic/fields.py:162-166 | preparation fails with the `unable to infer type` ConfigError if and only if there is no type and the default is `None` |
| Analysis.PrepareAll | pydantic/fields.py:221 | a successful preparation of the members yields one field per member, in order; which field each one is, `AnalysisProperties.PrepareAllOk` states |
| AnalysisProperties.PrepareAllOk | pydantic/fields.py:221 | preparing the members succeeds if and only if every member's `_create_sub_type` does; field j is then exactly the field prepared for type j under name j; a failure is the error of the first member that fails, and (with a registry that does not raise) only an unsupported origin fails |
| AnalysisProperties.AnalyseOk | pydantic/fields.py:183-269 | type analysis never renames the field, never touches its validator chains or `validate_always`, only relaxes `required`/`allow_none`, and, given a validator registry that does not raise, fails only on an unsupported origin |
| AnalysisProperties.AnalyseUnwrappedOk | pydantic/fields.py:192-269 | the same for analysis after JSON unwrapping |
| AnalysisProperties.GenericOk | pydantic/fields.py:192-233 | the same for the non-container branches |
| AnalysisProperties.LiteralOk | pydantic/fields.py:195-200 | the same for literal types |
| AnalysisProperties.AnalyseUnionOk | pydantic/fields.py:207-222 | the same for unions, including the re-analysed single member |
| AnalysisProperties.AnalyseTupleOk | pydantic/fields.py:224-233 | the same for tuples |
| AnalysisProperties.AnalyseContainerOk | pydantic/fields.py:235-269 | the same for containers |
| AnalysisProperties.WithElementOk | pydantic/fields.py:268-269 | adding the element sub-field keeps type, shape, key field and class validators and adds exactly one sub-field named `_<name>` |
| AnalysisProperties.AnalyseMappingOk | pydantic/fields.py:257-262 | the same guarantees as `AnalyseOk` for mappings |
| AnalysisProperties.MappingFields | pydantic/fields.py:257-262 | a mapping field has shape MAPPING, the value type, a key field `key_<name>` and one value sub-field `_<name>` |
| AnalysisProperties.PositionFieldsOk | pydantic/fields.py:226-232 | the position fields are named `<name>_<i>` for each position before the first `Ellipsis` |
| AnalysisProperties.FirstEllipsisEnd | pydantic/fields.py:227-231 | the tuple loop runs to the end if and only if there is no `Ellipsis` |
| AnalysisProperties.TupleFields | pydantic/fields.py:224-233 | a tuple field has one sub-field per position before the first `Ellipsis`; sub-field j is named `<name>_<j>` and is exactly the field `_create_sub_type` prepares for argument j under that name |
| AnalysisProperties.PositionFieldsRun | pydantic/fields.py:226-232 | the positional loop from position i is the preparation of the positions up to the next `Ellipsis`, the one at position k named `<name>_<k>` |
| AnalysisProperties.TupleShapes | pydantic/fields.py:224-233 | without `Ellipsis`: shape TUPLE with one sub-field per argument; with one: shape TUPLE_ELLIPSIS and type the first argument |
| AnalysisProperties.VariadicTuple | pydantic/fields.py:226-231 | `Tuple[T, ...]` keeps type `T`, shape TUPLE_ELLIPSIS and a single sub-field `<name>_0` |
| AnalysisProperties.UnionFields | pydantic/fields.py:207-222 | a union of other than one non-`None` member: `allow_none` and `required` follow the presence of `NoneType`, and there is one sub-field per member, named `<name>_<display_as_type>` and equal to the field `_create_sub_type` prepares for that member under that name |
| AnalysisProperties.OptionalIsNotRequired | pydantic/fields.py:210-219 | `Optional[T]` prepares exactly as `T` with `required=False` |
| AnalysisProperties.OptionalAnalysis | pydantic/fields.py:210-219 | analysing `Union[T, None]` is analysing `T` with `required=False`, `allow_none=True` |
| AnalysisProperties.Containers | pydantic/fields.py:235-269 | list/set/frozenset/sequence/mapping get their shape and element type, one sub-field `_<name>`, and are complex |
| AnalysisProperties.UnsupportedOrigin | pydantic/fields.py:265-266 | an unknown generic origin fails preparation with `Fields of type ... are not supported` |
| AnalysisProperties.NoneFieldNotInSchema | pydantic/fields.py:478-482 | a `NoneType` field prepares and is excluded from the schema |
| Analysis.IncludeInSchema | pydantic/fields.py:478-482 | among the types of values, only the type of `None` is excluded from the schema |
| Analysis.IsComplex | pydantic/fields.py:484-494 | every container shape is complex; a singleton whose type is that of a value is complex exactly for a list, set or dict (not a tuple or frozenset) |
| AnalysisProperties.InferredFieldKinds | pydantic/fields.py:478-494 | a field typed by a non-`None` default is a singleton of the default's class, in the schema, and complex exactly when the default is a list, set or dict |
| AnalysisProperties.OptionalInSchema | pydantic/fields.py:478-482 | `Optional[C]` for a plain class `C` prepares as `C`, allows `None`, and unlike a `NoneType` field is in the schema; it is complex exactly when `C` is |
| AnalysisProperties.ListOfNoneNotInSchema | pydantic/fields.py:478-482 | as written, `List[None]` takes `NoneType` as its refined type, so the list field is excluded from the schema although it is complex |
| AnalysisProperties.NatToStringInjective | pydantic/fields.py:232 | distinct positions give distinct sub-field names |
| AnalysisProperties.UpdateValidatorHas | pydantic/fields.py:239-244 | `class_validators.update` makes the named entry present and keeps every other name |
| AnalysisProperties.ListValidatorsAdded | pydantic/fields.py:239-244 | every validator of a list type's own chain is registered as `list_i`, with `pre` and `always` set and `each_item` unset |
| AnalysisProperties.FuncsHas | pydantic/fields.py:297-298 | a class validator with given flags contributes its function to the chain for those flags |
| AnalysisProperties.ConstrainedListValidatorsRunFirst | pydantic/fields.py:235-297 | a constrained list's own validators end up among the field's pre-validators |
| AnalysisProperties.ListValidatorsInPre | pydantic/fields.py:296-297 | the registered `list_i` validators are in the populated pre-validators |
| AnalysisProperties.ListAnalysed | pydantic/fields.py:235-247 | a list field's class validators are its own plus the list type's validators, and its shape is LIST |
| AnalysisProperties.PopulateOrder | pydantic/fields.py:279-304 | the pre-validators are the constant check first (when `const`), then the whole-field `pre` class validators in declaration order, then `validate_json` last (when `parse_json`); the post-validators are the whole-field non-`pre` class validators in order; a field without sub-fields gets as main chain its `each_item` `pre` validators, then the type's own or registry chain, then its `each_item` non-`pre` validators, and a field with sub-fields keeps its chain; nothing but the three chains changes |
| AnalysisProperties.PopulatePre | pydantic/fields.py:296-297 | any `pre`, not-`each_item` class validator is a pre-validator of the populated field |
| Values.Dedup | pydantic/fields.py:379-382 | set conversion keeps exactly the members of the input, without repetitions, and is no longer |
| Values.Put | pydantic/fields.py:447 | assigning `result[k]` makes `k` map to the new value and leaves every other key unchanged |
| Values.PutKeys | pydantic/fields.py:447 | after assignment the keys are the old keys plus `k` |
| ValidationProperties.ApplyAppend | pydantic/fields.py:468-476 | running two chains in sequence equals running their concatenation |
| ValidationProperties.ApplyErrorAt | pydantic/fields.py:471-475 | an error from `_apply_validators` is a single `ErrorWrapper` at `loc`, raised by some validator of the chain on the value reached |
| ValidationProperties.ApplyAllPass | pydantic/fields.py:471-476 | with no error the result is the input folded through every validator in order |
| ValidationProperties.UnderWeaken | pydantic/fields.py:363-367 | an error located under a path is located under any prefix of it |
| ValidationProperties.ApplyUnder | pydantic/fields.py:475 | errors of a chain are at `loc` |
| ValidationProperties.ValidateUnder | pydantic/fields.py:310-341 | every error `validate` reports is located at or below `loc` |
| ValidationProperties.DispatchUnder | pydantic/fields.py:329-337 | the same for the shape dispatch |
| ValidationProperties.SingletonUnder | pydantic/fields.py:453-466 | the same for singleton and union validation |
| ValidationProperties.UnionFromUnder | pydantic/fields.py:458-464 | the same for the union loop |
| ValidationProperties.SequenceLikeUnder | pydantic/fields.py:343-392 | the same for sequence-like validation; element errors sit at `loc + (i,)` |
| ValidationProperties.SeqFromUnder | pydantic/fields.py:366-375 | the same for the element loop |
| ValidationProperties.TupleUnder | pydantic/fields.py:394-422 | the same for tuple validation |
| ValidationProperties.TupleFromUnder | pydantic/fields.py:411-420 | the same for the positional loop |
| ValidationProperties.MappingUnder | pydantic/fields.py:424-451 | the same for mapping validation |
| ValidationProperties.MapFromUnder | pydantic/fields.py:434-449 | the same for the entry loop |
| ValidationProperties.MemberErrors | pydantic/fields.py:458-464 | one error list per failed union member |
| ValidationProperties.UnionSkip | pydantic/fields.py:458-464 | failing members only add their errors, in order, and the loop moves on |
| ValidationProperties.UnionFirstSuccess | pydantic/fields.py:458-463 | a union returns the value of the first member that succeeds, with no error |
| ValidationProperties.UnionAllFail | pydantic/fields.py:458-464 | when every member fails, the union returns the original value and exactly one error list per member, in order |
| ValidationProperties.UnionRaises | pydantic/fields.py:459 | an uncaught exception from a member is not caught by the union |
| ValidationProperties.MemberErrorsAt | pydantic/fields.py:458-464 | the j-th error list is that of member j |
| ValidationProperties.SeqSkip | pydantic/fields.py:366-372 | the element loop validates every element, with no early exit, collecting values and errors |
| ValidationProperties.SequenceLikeResult | pydantic/fields.py:366-392 | any element error returns the input unchanged with all element errors; otherwise the validated elements, converted by shape |
| ValidationProperties.SequenceLikeRaises | pydantic/fields.py:368 | an uncaught exception in any element escapes |
| ValidationProperties.ItemValuesAll | pydantic/fields.py:366-372 | with no errors, element j of the result is element j validated |
| ValidationProperties.ListKeepsLength | pydantic/fields.py:366-377 | a list field's output is a list of the same length, element by element |
| ValidationProperties.SetDeduplicates | pydantic/fields.py:379-380 | a set field's output holds every validated element, without repetitions, and may be shorter |
| ValidationProperties.SetOfDuplicatesShrinks | pydantic/fields.py:379-380 | `[1, 1]` validated as a set gives `{1}` |
| ValidationProperties.TupleSkip | pydantic/fields.py:411-417 | the positional loop validates every position, collecting values and errors |
| ValidationProperties.TupleResult | pydantic/fields.py:397-422 | non-sequence: `TupleError`; generator: `len` raises; wrong length: `TupleLengthError(actual, expected)` with no position validated; errors: the input with every position error; otherwise the tuple of validated positions |
| ValidationProperties.PositionValuesAll | pydantic/fields.py:411-417 | with no errors, position i of the result was validated by sub-field i |
| ValidationProperties.PutAllGet | pydantic/fields.py:447 | the dict built by successive assignments maps each key to its last assigned value |
| ValidationProperties.MapSkip | pydantic/fields.py:434-447 | the entry loop visits every entry, collecting errors and assignments |
| ValidationProperties.MapAccumulate | pydantic/fields.py:434-447 | one entry step extends the accumulated assignments and errors |
| ValidationProperties.MapStep | pydantic/fields.py:434-447 | one entry: an escaped exception ends validation, a key or value error is recorded, otherwise the pair is assigned |
| Validation.DictValidator | pydantic/fields.py:427-430 | a dict is taken as it is; any other value is handed to the runner's `DictCoerce` step |
| ValidationProperties.MappingResult | pydantic/fields.py:427-451 | a coercion rejected with `e` gives one error `e` at `loc`, and one that escapes or yields no dict escapes; otherwise, over the dict's entries, any entry error returns the input with every entry error, and else a new dict of validated pairs |
| ValidationProperties.LaterKeyWins | pydantic/fields.py:447 | two keys validating to the same key collapse, and the later value wins |
| ValidationProperties.MappingWithoutKeyField | pydantic/fields.py:436 | a mapping validated without a key field fails with an exception |
| ValidationProperties.EntryErrorsFiled | pydantic/fields.py:435-445 | a key error is filed under `loc + ('__key__',)` and that entry's value is skipped; a value error is filed under `loc + (k,)` |
| ValidationProperties.PreFailureStops | pydantic/fields.py:315-318 | a failing pre-validator returns its error at once: shape, sub-fields, chains and post-validators play no part |
| ValidationProperties.PostOnlyOnSuccess | pydantic/fields.py:315-341 | once the pre-validators pass a value other than `None`, that value is dispatched on shape, and post-validators run on the dispatched value only when dispatch produced no error |
| ValidationProperties.NoneHandling | pydantic/fields.py:315-327 | when the pre-validators pass `None` (or there are none and the input is `None`), the result is `(None, None)` or the post-validator result when `allow_none`, and otherwise exactly one `NoneIsNotAllowedError` at `loc` |
| ValidationProperties.OptionalAcceptsNone | pydantic/fields.py:320-325 | an `Optional[T]` field is not required, accepts `None`, and with no chains returns `(None, None)` |
| ValidationProperties.OptionalUnion | pydantic/fields.py:210-213 | a union with a `NoneType` member makes the field optional and `None`-accepting |
| ValidationProperties.RequiredRejectsNone | pydantic/fields.py:320-327 | a required plain-class field rejects `None` with one `NoneIsNotAllowedError` |
| ConstrainedTypes.CheckBounds | pydantic/types.py:244-249 | class creation fails if and only if both `gt` and `ge`, or both `lt` and `le`, are given, with the message of the first conflict found; otherwise the class is unchanged |
| ConstrainedTypes.Len | pydantic/types.py:127 | `len` is defined for str, bytes, dict and every sequence-like value except a generator, and is its element count |
| ConstrainedTypes.ListLength | pydantic/types.py:126-135 | the list is returned unchanged if and only if it has a length within the given bounds; too short gives `ListMinLengthError(min_items)`, checked first; too long gives `ListMaxLengthError(max_items)`; no length gives `TypeError` |
| ConstrainedTypes.Slice | pydantic/types.py:163 | `value[:n]` is a prefix of length `min(n, len)`, or `max(0, len + n)` for negative `n` |
| ConstrainedTypes.Curtail | pydantic/types.py:162-163 | curtailing gives a prefix; no curtail length or 0 keeps the value; a positive length truncates to it |
| ConstrainedTypes.ValidateStr | pydantic/types.py:161-169 | the value passes if and only if there is no regex or the regex matches at the start of the curtailed value; the result is the curtailed value; the error is `StrRegexError(pattern)` |
| ConstrainedTypes.ExtensionsPass | pydantic/types.py:165-166 | any extension of a string the pattern matches also passes |
| ConstrainedTypes.PrefixMatchAcceptsLonger | pydantic/types.py:165-166 | the pattern `a` accepts `abc` |
| ConstrainedTypes.PatternSeesCurtailedValue | pydantic/types.py:162-167 | with curtail length 2, the pattern `abcd` rejects `abcd`, because it only sees `ab` |
| ConstrainedTypes.CurtailIdempotent | pydantic/types.py:162-163 | curtailing twice is curtailing once |
| ConstrainedTypes.StrictBool | pydantic/types.py:207-214 | a value passes if and only if it is a bool, unchanged; anything else gives `StrictBoolError` |
| ConstrainedTypes.DigitLayout | pydantic/types.py:351-366 | decimals = max(0, -exponent), whole digits = max(0, n + exponent), 0 ≤ decimals ≤ digits and n ≤ digits |
| ConstrainedTypes.ValidateDecimal | pydantic/types.py:346-379 | non-finite values give `DecimalIsNotFiniteError`; a finite value is returned unchanged if and only if it is within the limits; the errors come in the order max digits, max places, whole digits (carrying `max_digits - decimal_places`) |
| ConstrainedTypes.WholeDigitCheckNeeded | pydantic/types.py:374-377 | 12345 with max_digits 5 and decimal_places 2 fails only on the whole-digit check |
| ConstrainedTypes.FractionDigits | pydantic/types.py:361-362 | 0.001 counts three digits: it fails max_digits 2 and passes (3, 3) |
| PaymentCards.ValidateDigits | pydantic/types.py:553-556 | the number passes unchanged if and only if it is a non-empty digit string; otherwise `NotDigitError` |
| PaymentCards.PartialSumExcess | pydantic/types.py:566-570 | the loop's partial sum is the standard Luhn partial sum plus the excess of doubled digits above 9 |
| PaymentCards.LuhnSumPrefix | pydantic/types.py:566-570 | the left-to-right loop with parity `len % 2` computes the right-to-left Luhn weighting of every prefix |
| PaymentCards.LuhnSumWhole | pydantic/types.py:563-570 | the reference Luhn sum of the whole number equals the standard partial sum |
| PaymentCards.LuhnAsWrittenVsStandard | pydantic/types.py:563-571 | the as-written sum is the standard sum plus the excess; with no doubled digit above 4 the two checks agree |
| PaymentCards.StdPartialSumChange | pydantic/types.py:566-570 | changing one digit changes the standard sum only by the change in that digit's weight |
| PaymentCards.StdWeightDistinct | pydantic/types.py:566-570 | with digit-summing, distinct digits have distinct weights below 10 |
| PaymentCards.LuhnDetectsSingleDigitErrors | pydantic/types.py:558-574 | the corrected check never accepts two numbers that differ in exactly one digit |
| PaymentCards.VisaTestNumberAsWritten | pydantic/types.py:563-570 | the loop sums `4111111111111111` to 30 |
| PaymentCards.VisaTestNumberStandard | pydantic/types.py:563-570 | the standard sum of `4111111111111111` is 30 |
| PaymentCards.AlteredVisaTestNumberAsWritten | pydantic/types.py:563-570 | the loop sums `9111111111111111` to 40 |
| PaymentCards.AlteredVisaTestNumberStandard | pydantic/types.py:563-570 | the standard sum of `9111111111111111` is 31 |
| PaymentCards.MastercardTestNumberAsWritten | pydantic/types.py:563-570 | the loop sums `5555555555554444` to 114 |
| PaymentCards.MastercardTestNumberStandard | pydantic/types.py:563-570 | the standard sum of `5555555555554444` is 60 |
| PaymentCards.ShortMastercardAsWritten | pydantic/types.py:563-570 | the loop sums `5100000000003` to 10 |
| PaymentCards.ShortMastercardStandard | pydantic/types.py:563-570 | the standard sum of `5100000000003` is 10 |
| PaymentCards.LuhnAsWrittenMissesDigitError | pydantic/types.py:563-574 | `4111111111111111` and `9111111111111111` differ in one digit and both pass the loop as written; the corrected check rejects the second |
| PaymentCards.LuhnAsWrittenRejectsTestCard | pydantic/types.py:563-574 | the valid test number `5555555555554444` fails the loop as written and passes the corrected check |
| PaymentCards.GetBrand | pydantic/types.py:596-605 | Visa if and only if the first digit is 4; Mastercard if and only if the first two digits are 51 to 55; American Express if and only if they are 34 or 37 |
| PaymentCards.LengthForBrandAsWritten | pydantic/types.py:576-593 | as written: the number passes unchanged unless it is Visa without 16 digits or Amex without 15; the error names the brand and that length |
| PaymentCards.RequiredLength | pydantic/types.py:583 | corrected, not what the code does: the length table the condition evidently intends, Visa and Mastercard 16 digits, Amex 15, other brands nothing |
| PaymentCards.LengthForBrand | pydantic/types.py:576-593 | corrected: the number passes unchanged if and only if its brand has no required length or it has that length; the error is `InvalidLengthForBrand(brand, required_length)` |
| PaymentCards.MastercardLengthUnchecked | pydantic/types.py:583-585 | the 13-digit Mastercard `5100000000003` passes both Luhn checks and the as-written length check; the corrected check requires 16 |
| PaymentCards.LengthChecksAgree | pydantic/types.py:582-593 | for every brand but Mastercard the as-written and corrected length checks agree |
| PaymentCards.Stars | pydantic/types.py:550 | `'*' * n` is `max(0, n)` asterisks |
| PaymentCards.PaymentCardNumber.constructor | pydantic/types.py:532-535 | `bin` is the first 6 characters, `last4` the last 4, and `brand` the brand of the number |
| PaymentCards.PaymentCardNumber.Masked | pydantic/types.py:547-550 | for 10 or more digits: same length, first 6 and last 4 kept, the rest asterisks; shorter numbers give `bin + last4` |
| PaymentCards.PaymentCardNumber.ValidateLuhnCheckDigit | pydantic/types.py:558-574 | the loop as written accepts, unchanged, exactly the numbers whose as-written sum is divisible by 10; otherwise `LuhnValidationError` |
| PaymentCards.PaymentCardNumber.Validate | pydantic/types.py:537-545 | the digit, Luhn and length checks as written, in chain order: a card is made if and only if the number is digits, its as-written Luhn sum is divisible by 10 and only Visa/Amex lengths are enforced; otherwise the first failing check's error is returned |
| PaymentCards.PaymentCardNumber.ValidateCorrected | pydantic/types.py:566-583 | corrected, not what the code does: the same chain with the standard Luhn check and the Visa-and-Mastercard length table |
| Secrets.Mask | pydantic/types.py:477-478 | the display of a secret is ten asterisks when it is non-empty and nothing otherwise |
| Secrets.SecretStr.constructor | pydantic/types.py:468-469 | the value is stored as given |
| Secrets.SecretStr.Validate | pydantic/types.py:464-466 | validation wraps the string in a new secret whose value is that string |
| Secrets.SecretStr.GetSecretValue | pydantic/types.py:480-481 | the stored value is handed back unchanged |
| Secrets.SecretStr.Display | pydantic/types.py:477-478 | `display` shows only the mask |
| Secrets.SecretStr.Repr | pydantic/types.py:471-475 | `repr` and `str` show the class name around the mask |
| Secrets.SecretBytes.constructor | pydantic/types.py:494-495 | the value is stored as given |
| Secrets.SecretBytes.Validate | pydantic/types.py:490-492 | validation wraps the bytes in a new secret whose value is those bytes |
| Secrets.SecretBytes.GetSecretValue | pydantic/types.py:506-507 | the stored value is handed back unchanged |
| Secrets.SecretBytes.Display | pydantic/types.py:503-504 | `display` shows only the mask |
| Secrets.SecretBytes.Repr | pydantic/types.py:497-501 | `repr` and `str` show the class name around the bytes mask |
| Secrets.ShownTextHidesValue | pydantic/types.py:471-478 | two secret strings that are both empty or both non-empty display identically |
| Secrets.ShownBytesHideValue | pydantic/types.py:497-504 | the same for secret bytes |
| TypeChains.OwnChainField | pydantic/fields.py:279-288 | a field of a type with its own `__get_validators__` and no class validators is a singleton whose chain is exactly that type's chain, with no pre- or post-validators |
| TypeChains.ChainFieldValidate | pydantic/fields.py:315-341 | validating a non-`None` value in such a field is running its chain |
| TypeChains.StrictBoolField | pydantic/types.py:202-214 | a `StrictBool` field accepts exactly bools, unchanged, and rejects other values with `StrictBoolError` at `loc`; `None` passes only for an optional field |
| TypeChains.StrValidateStep | pydantic/types.py:158-169 | the last step of a `constr` chain gives the curtailed value or `StrRegexError` at `loc` |
| TypeChains.ConstrainedStrField | pydantic/types.py:153-169 | for any default and required flag, once the string validators have produced a string, a `constr` field returns the curtail-and-regex outcome |
| TypeChains.ListValidatorRegistered | pydantic/fields.py:239-244 | `list_length_validator` is registered as `list_0`, a pre validator that is not per item |
| TypeChains.ConstrainedListPrepared | pydantic/types.py:121-123 | a `conlist` field has shape LIST, the length check as its only pre-validator, and no post-validators |
| TypeChains.JsonFlagKept | pydantic/fields.py:185-190 | analysing a list type never sets `parse_json` |
| TypeChains.ConstrainedListField | pydantic/fields.py:315-318 | a `conlist` field whose length check fails returns the input with that one error at `loc`, before the `None` check and before any element is validated |
| TypeChains.ConstrainedListFieldPasses | pydantic/fields.py:315-341 | a `conlist` field whose length check passes returns exactly what sequence validation makes of the input, with no post-validators |
| TypeChains.CardChecks | pydantic/types.py:542-545 | after the string validators, the card chain as written gives the digit error, the as-written Luhn error, or the as-written length-for-brand outcome, in that order |
| TypeChains.PaymentCardField | pydantic/types.py:537-545 | for any default and required flag, a `PaymentCardNumber` field returns exactly that as-written outcome for the stripped string |

## Left out

- `Field.infer`, `set_config`, `alt_alias`, `__str__`/`__repr__` and the `schema` argument: configuration and display plumbing over `Schema`, `BaseConfig` and `main`, which are not part of this model. A field's `schema.const` is the boolean `isConst`.
- Python `typing` introspection (`__origin__`, `__args__`, `lenient_issubclass`, `literal_values`): replaced by the closed `TypeDescriptors.Type`. A `ForwardRef` leaves the field unprepared, as the early return does.
- `find_validators`, `make_generic_validator`, `display_as_type`, `constant_validator`, `validate_json`, `str_validator`, `strict_str_validator`, `bytes_validator`, `int_validator`, `strict_int_validator`, `decimal_validator`, `number_size_validator`, `number_multiple_validator`, `constr_strip_whitespace` and `constr_length_validator` live in helper modules that are not part of this model. They are validator identifiers whose behaviour the `Runner` supplies, or fields of `Config`.
- `AnalysisProperties.PrepareOk`, `AnalysisProperties.PrepareAllOk`, `AnalysisProperties.AnalyseOk`, `Fields.Field.Prepare`: the validator registry is taken never to raise. That covers `find_validators`, a type's `__get_validators__` and `make_generic_validator`, which `_populate_validators` calls for every field and sub-field (pydantic/fields.py:285-301). `Config.findValidators` is total, so the clause "fails only on an unsupported origin" holds only under that assumption. The source's `RuntimeError` for a class without validators and `ConfigError` for a bad validator signature are not modelled.
- `AnalysisProperties.AnalyseUnwrappedOk`, `AnalysisProperties.GenericOk`, `AnalysisProperties.LiteralOk`: their failure-kind clause rests on the same never-raising registry.
- `AnalysisProperties.AnalyseUnionOk`, `AnalysisProperties.AnalyseTupleOk`: the same; their sub-fields are populated through that registry.
- `AnalysisProperties.AnalyseContainerOk`, `AnalysisProperties.AnalyseMappingOk`: the same; their element and key fields are populated through that registry.
- `sequence_like`: its body is not part of this model. `Values.SequenceLike` takes it to hold exactly for list, tuple, set, frozenset and generator values.
- `Validation.DictValidator`: the body of `dict_validator` is not part of this model. Only its dict case is fixed; `dict(v)` of any other value is the runner's `DictCoerce` step.
- The extra arguments a validator receives (`values`, `cls`, the field, the config) are fixed for one validation call and folded into the `Runner`.
- Exceptions other than `ValueError`/`TypeError`/`AssertionError`: modelled only as escaping (`Raised`), with no exception value.
- Generators: a value tag. Lazy iteration, and the `iter(result)` a `Sequence` field returns for a generator, keep their elements eagerly.
- Sets: held in first-occurrence order. Python's hash order is not modelled; only membership is meaningful.
- Dicts: ordered entry lists. Python key hashing and equality between values such as `1` and `True` are not modelled.
- `Analysis.IsComplex`: `lenient_issubclass(type_, (BaseModel, list, set, dict))` and the `__pydantic_model__` test (a pydantic dataclass) are reduced to the `complex` flag of `Class`, which the caller sets. Class hierarchies, models and dataclasses are not modelled, so the flag is not derived from them. `TypeOf` sets it for `list`, `set` and `dict`.
- `Values.Dedup`: removes repeated values by structural equality. Python's `set()` also raises `TypeError` on an unhashable element (a list or dict) and merges `1` with `True`; neither is modelled.
- `ValidationProperties.SetDeduplicates`: stated for `Values.Dedup`, so it shares that gap.
- `ConstrainedTypes.Len`: an arbitrary object (`Obj`) is treated as having no `len`; a user object defining `__len__` is not modelled.
- Float types (`confloat`, `PositiveFloat`, `StrictFloat`, ...): floating point is out of scope. Number bounds are modelled over integers.
- `PyObject`, `FilePath`/`DirectoryPath`, `Json`, the UUID classes, `EmailStr`/`NameEmail` and the `con*` factory functions: dynamic import, file-system access and dynamic class construction. The `con*` factories become the parameters of the modelled checks.
- The regex engine: a pattern is its source text plus an abstract whole-string matcher `matchesWhole`. `regex.match` is "some prefix matches".
- `ConstrainedTypes.ValidateDecimal`: the sign of the decimal plays no part in the checks and is carried unchanged. `Decimal.as_tuple` is replaced by the `DecimalValue` datatype.
- `PaymentCards.ValidateDigits`: `str.isdigit` accepts every Unicode digit; the model accepts only ASCII `0`-`9`.
- `PaymentCards.PaymentCardNumber.ValidateLuhnCheckDigit`: requires a non-empty digit string. On other input the source raises `IndexError` or `ValueError`; the chain never gives it such input, because `validate_digits` runs first.
- `PaymentCards.GetBrand`: requires a non-empty digit string, for the same reason.
- `PaymentCards.PaymentCardNumber.constructor`: requires a non-empty digit string, for the same reason.
- `TypeChains.ConstrainedStrField`: stated for the outcome of the abstract string validators. `ConstrainedTypes.ValidateStr` states what the last validator does with it.
- `TypeChains.PaymentCardField`: stated for the outcome of the abstract string validators, in the same way.
- `Secrets.SecretStr.Repr` and `Secrets.SecretBytes.Repr` model `__repr__`; `__str__` returns the same text.

## Findings

| source | as written | input that shows it | evidently intended | confidence | as-written member | corrected member |
|---|---|---|---|---|---|---|
| pydantic/types.py:566-570 | every second digit is doubled and added whole, so a doubled digit above 4 adds its double rather than the sum of its digits | `9111111111111111` passes although it differs from the valid `4111111111111111` in one digit; the valid Mastercard test number `5555555555554444` is rejected | the Luhn check of ISO/IEC 7812-1 Annex B, which sums the digits of each doubled value and detects every single-digit error | not executed | PaymentCards.PaymentCardNumber.ValidateLuhnCheckDigit, PaymentCards.PaymentCardNumber.Validate, TypeChains.PaymentCardField, PaymentCards.LuhnAsWrittenMissesDigitError | PaymentCards.LuhnValid, PaymentCards.LuhnDetectsSingleDigitErrors, PaymentCards.PaymentCardNumber.ValidateCorrected |
| pydantic/types.py:583 | `brand is (visa or mastercard)` evaluates the parenthesis to `visa`, so a Mastercard number is never length-checked | the 13-digit Mastercard number `5100000000003` passes the digit, Luhn and length checks | Visa and Mastercard numbers both required to have 16 digits | not executed | PaymentCards.LengthForBrandAsWritten, PaymentCards.PaymentCardNumber.Validate, TypeChains.PaymentCardField, PaymentCards.MastercardLengthUnchecked | PaymentCards.LengthForBrand, PaymentCards.RequiredLength, PaymentCards.PaymentCardNumber.ValidateCorrected |

The field chain and `PaymentCards.PaymentCardNumber.Validate` keep the behaviour as written, so a field model shows what pydantic does. `PaymentCards.PaymentCardNumber.ValidateCorrected` is the chain with both corrections, and `PaymentCards.LengthChecksAgree` shows the length checks differ only for Mastercard.
