# jtraxxs outcome library in Dafny

jtraxxs is a small railway-style outcome library for Java. A computation
yields either a `ValueResult<V, E>` (a value of type `V` or an error of type
`E`) or a `VoidResult<E>` (nothing or an error). Both extend the abstract
observer `Result<E>`. Each result type has one successful and one failed
implementation class. Every combinator (guards, chaining, extraction, hooks)
is a case split on which of the two classes the receiver is.

This project models that core as Dafny datatypes:

- `Results.Result<E>` is the observer view: `isSuccessful`, `hasFailed`,
  `error`, `errorStream`.
- `VoidResults.VoidResult<E> = VOk | VFail(error)`. `VOk` stands for
  `SuccessfulVoidResult`, `VFail` for `FailedVoidResult`.
- `ValueResults.ValueResult<V, E> = Ok(value) | Fail(error)`. `Ok` stands
  for `SuccessfulValueResult`, `Fail` for `FailedValueResult`.

Each combinator is one member function. Its successful branch comes from the
`Successful*` class and its failed branch from the `Failed*` class. Each
concrete result has `AsResult()` to view it as a `Result<E>`, just as a Java
subclass is seen through its superclass. The `HasFailed` of each datatype
delegates to `Result.HasFailed` through that view, just as `hasFailed` is
implemented once in `Result` and inherited by every subclass.

The repository holds two copies of the failed classes: a current one under
`com/iremembr/jtraxxs` and an older one under `jtraxxs`. The older copy has
the same bodies but lacks `castValue`, `castError` and `toVoidResult`. One
datatype covers both copies. The `com/iremembr/jtraxxs` package also has its
own abstract `VoidResult` and `SuccessfulVoidResult` (its `FailedVoidResult`
extends that `VoidResult`, and the tests call its `ok`, `fail`, `sequence` and
`castError`), but those two files are not part of this model. The
`jtraxxs` copies of `VoidResult` and `SuccessfulVoidResult` are modelled
instead.

Java platform features become small value types in `Wrappers`:

- A possibly-null reference is `Nullable<T> = Null | Ref(referent)`.
- `java.util.Optional` is `Option<T>`.
- The library's own exceptions become `Checked<T> = Returned(value) | Violated(violation)`.
  `IllegalStateException` from `value()` or `error()` on the wrong shape is
  `InvalidState`. The null check on `fromOptional` is `NullArgument`. A
  failing `castError` is `IllegalArgument`.
- `orElseThrow` returns `Thrown<V, X> = Returns(v) | Throws(x)`. Here `x` is
  exactly the exception the caller's supplier produced.

Callbacks with side effects (`Runnable`, `Consumer`) become state
transformers over a state type `S` that the caller chooses. A hook returns the
receiver together with the new state. "The callback ran once" is then
`out.1 == run(s)`, and "it did not run" is `out.1 == s`. `Supplier`s and
`Function`s become Dafny functions of the matching arity.

`ValueResult.sequence` fills two lists in a loop, through
`onSuccess(values::add)` and `onFailure(errors::add)`. It is modelled as
the method `ValueResults.Sequence`, with the same loop over those two hooks.
Its invariants tie the accumulated lists to the specification functions
`Values` and `Errors`. `VoidResult.sequence` is a stream pipeline
(`flatMap(Result::errorStream)`); it is modelled as the function
`VoidResults.Sequence` over `Results.FlatErrors`.

The module `ValueResultLaws` holds the laws that relate the combinators to
each other. Examples:

- Failure short-circuits every guard and chaining operation.
- `map` and `mapError` are functors, and `flatMap` is a monad.
- `map`, `take` and `combine` are instances of `flatMap`.
- `map`, `mapError`, `flatMap` and the extractions `orElse`, `orElseGet`,
  `orElseThrow`, `toOptional`, `value`, `error`, `stream` and `isSuccessful` are
  each an instance of `fold`.
- `onBoth` is `onSuccess` followed by `onFailure`.
- `toOptional` and `fromNullable`, and `fromOptional` and
  `Optional.ofNullable`, agree with each other.

`VoidResultLaws` holds the corresponding laws for `VoidResult`. It also shows
that `sequence` distributes over concatenation.

## Model

| member | source | states |
|---|---|---|
| `Wrappers.OfNullable` | src/main/java/com/iremembr/jtraxxs/SuccessfulValueResult.java:194-197 | Optional.ofNullable: empty exactly for null, otherwise holds the referent |
| `Results.Result.IsSuccessful` | src/main/java/com/iremembr/jtraxxs/Result.java:22-27 | whether the result is successful: exactly the Successful shape |
| `Results.Result.HasFailed` | src/main/java/com/iremembr/jtraxxs/Result.java:29-36 | the base-class hasFailed: the negation of isSuccessful, inherited by every result |
| `Results.FlatErrors` | src/main/java/jtraxxs/VoidResult.java:49-51 | stream.flatMap(Result::errorStream) collected into a list; never longer than the input list |
| `Results.Result.Error` | src/main/java/com/iremembr/jtraxxs/Result.java:38-44 | error() returns the error exactly when the result has failed; on a success it is an invalid-state violation |
| `Results.Result.ErrorStream` | src/main/java/com/iremembr/jtraxxs/Result.java:46-60 | the error stream has at most one element; it is empty exactly on a success and is `[error]` on a failure |
| `Results.FlatErrorsAppend` | src/main/java/com/iremembr/jtraxxs/Result.java:51-56 | flat-mapping errorStream over a concatenation gives the two error lists concatenated, so errors keep list order |
| `Results.FlatErrorsLength` | src/main/java/jtraxxs/VoidResult.java:49-51 | the flat-mapped error list has exactly one entry per failed result |
| `Results.FlatErrorsEmpty` | src/main/java/jtraxxs/VoidResult.java:49-52 | the flat-mapped error list is empty if and only if every result is successful |
| `Results.FlatErrorsMembers` | src/main/java/com/iremembr/jtraxxs/Result.java:46-56 | an error is in the flat-mapped list if and only if some failed result holds it |
| `VoidResults.VoidResult.AsResult` | src/main/java/jtraxxs/VoidResult.java:24 | the Result view is successful exactly for VOk and carries the same error |
| `VoidResults.VoidResult.IsSuccessful` | src/main/java/jtraxxs/SuccessfulVoidResult.java:31-34 | true exactly for VOk (SuccessfulVoidResult), false for VFail (FailedVoidResult) |
| `VoidResults.VoidResult.HasFailed` | src/main/java/com/iremembr/jtraxxs/Result.java:29-36 | hasFailed is the negation of isSuccessful |
| `VoidResults.VoidResult.Error` | src/main/java/jtraxxs/SuccessfulVoidResult.java:36-39 | invalid-state violation on a success; the held error on a failure |
| `VoidResults.VoidResult.ErrorStream` | src/main/java/com/iremembr/jtraxxs/FailedVoidResult.java:64-67 | `[]` on a success, `[error]` on a failure, and it agrees with the Result view's errorStream |
| `VoidResults.VoidResult.OnSuccessRun` | src/main/java/jtraxxs/SuccessfulVoidResult.java:46-51 | returns the receiver; the runnable's effect happens once on a success and not at all on a failure |
| `VoidResults.VoidResult.OnFailureRun` | src/main/java/com/iremembr/jtraxxs/FailedVoidResult.java:74-79 | returns the receiver; the runnable's effect happens once on a failure and not at all on a success |
| `VoidResults.VoidResult.OnFailure` | src/main/java/com/iremembr/jtraxxs/FailedVoidResult.java:81-86 | returns the receiver; the consumer gets the error once on a failure; nothing happens on a success |
| `VoidResults.VoidResult.OnBoth` | src/main/java/jtraxxs/SuccessfulVoidResult.java:63-67 | returns the receiver; exactly one callback runs: the runnable on a success, the consumer with the error on a failure |
| `VoidResults.VoidResult.Ensure` | src/main/java/jtraxxs/SuccessfulVoidResult.java:69-72 | a failure is returned unchanged; a success stays when the flag is true and otherwise becomes a failure with the given error |
| `VoidResults.VoidResult.EnsureSupplier` | src/main/java/jtraxxs/SuccessfulVoidResult.java:74-78 | the same as the flag form applied to the supplier's value |
| `VoidResults.VoidResult.EnsureResult` | src/main/java/jtraxxs/SuccessfulVoidResult.java:80-84 | a failure is returned unchanged; a success survives exactly when the other result is successful, else it takes over the other's error |
| `VoidResults.VoidResult.EnsureResultSupplier` | src/main/java/jtraxxs/SuccessfulVoidResult.java:86-91 | the same as the result form applied to the supplied result |
| `VoidResults.VoidResult.MapError` | src/main/java/com/iremembr/jtraxxs/FailedVoidResult.java:115-119 | the shape is kept; a failure carries f(error) |
| `VoidResults.VoidResult.Fold` | src/main/java/jtraxxs/SuccessfulVoidResult.java:98-102 | success() on a success, failure(error) on a failure |
| `VoidResults.VoidResult.CastError` | src/main/java/com/iremembr/jtraxxs/FailedVoidResult.java:41-52 | a failure comes back unchanged exactly when its error is assignable to the target type, otherwise an illegal-argument violation; a success comes back unchanged for any target, as the successful-result tests expect |
| `VoidResults.VoidEquals` | src/main/java/com/iremembr/jtraxxs/FailedVoidResult.java:19-29 | equality is structural: all successes are equal, failures compare their errors, a success never equals a failure |
| `VoidResults.AsResults` | src/main/java/jtraxxs/VoidResult.java:47-50 | each input seen through its Result view, position by position, as the stream of VoidResults is flat-mapped with Result::errorStream |
| `VoidResults.Errors` | src/main/java/jtraxxs/VoidResult.java:49-51 | the inputs' errors flat-mapped in list order; never more than the inputs |
| `VoidResults.Sequence` | src/main/java/jtraxxs/VoidResult.java:47-53 | successful exactly when every input is; otherwise the failure carries the non-empty list of all the inputs' errors, one per failed input |
| `VoidResults.ErrorsAppend` | src/main/java/jtraxxs/VoidResult.java:49-51 | the error list of concatenated inputs is the concatenation of their error lists |
| `VoidResults.SequenceReportsEveryError` | src/main/java/jtraxxs/VoidResult.java:49-52 | a failed sequence holds an error if and only if some input failed with it |
| `ValueResults.ValueResult.AsResult` | src/main/java/com/iremembr/jtraxxs/ValueResult.java:20 | the Result view is successful exactly for Ok and carries the same error |
| `ValueResults.ValueResult.IsSuccessful` | src/main/java/com/iremembr/jtraxxs/SuccessfulValueResult.java:40-43 | true exactly for Ok (SuccessfulValueResult), false for Fail (FailedValueResult) |
| `ValueResults.ValueResult.HasFailed` | src/main/java/com/iremembr/jtraxxs/Result.java:34-36 | hasFailed is the negation of isSuccessful |
| `ValueResults.ValueResult.Value` | src/main/java/com/iremembr/jtraxxs/FailedValueResult.java:62-65 | the held value on a success; invalid-state violation on a failure |
| `ValueResults.ValueResult.Error` | src/main/java/com/iremembr/jtraxxs/SuccessfulValueResult.java:50-53 | invalid-state violation on a success; the held error on a failure |
| `ValueResults.ValueResult.Stream` | src/main/java/com/iremembr/jtraxxs/SuccessfulValueResult.java:55-58 | `[value]` on a success, `[]` on a failure |
| `ValueResults.ValueResult.ErrorStream` | src/main/java/com/iremembr/jtraxxs/FailedValueResult.java:77-80 | `[]` on a success, `[error]` on a failure, and it agrees with the Result view's errorStream |
| `ValueResults.ValueResult.OnSuccessRun` | src/main/java/com/iremembr/jtraxxs/SuccessfulValueResult.java:65-70 | returns the receiver; the runnable runs once on a success and not at all on a failure |
| `ValueResults.ValueResult.OnSuccess` | src/main/java/com/iremembr/jtraxxs/SuccessfulValueResult.java:72-77 | returns the receiver; the consumer gets the value once on a success; nothing happens on a failure |
| `ValueResults.ValueResult.OnFailureRun` | src/main/java/com/iremembr/jtraxxs/FailedValueResult.java:92-97 | returns the receiver; the runnable runs once on a failure and not at all on a success |
| `ValueResults.ValueResult.OnFailure` | src/main/java/com/iremembr/jtraxxs/FailedValueResult.java:99-104 | returns the receiver; the consumer gets the error once on a failure; nothing happens on a success |
| `ValueResults.ValueResult.OnBoth` | src/main/java/com/iremembr/jtraxxs/FailedValueResult.java:195-200 | returns the receiver; exactly one consumer runs, with the value on a success or with the error on a failure |
| `ValueResults.ValueResult.Ensure` | src/main/java/com/iremembr/jtraxxs/SuccessfulValueResult.java:96-99 | a failure is returned unchanged; a success stays when the flag is true and otherwise becomes a failure with the given error |
| `ValueResults.ValueResult.EnsureSupplier` | src/main/java/com/iremembr/jtraxxs/SuccessfulValueResult.java:101-105 | the same as the flag form applied to the supplier's value |
| `ValueResults.ValueResult.EnsurePredicate` | src/main/java/com/iremembr/jtraxxs/SuccessfulValueResult.java:107-111 | a failure is returned unchanged; a success stays exactly when the predicate holds of its value, else it becomes a failure with the given error |
| `ValueResults.ValueResult.EnsureResult` | src/main/java/com/iremembr/jtraxxs/SuccessfulValueResult.java:113-117 | a failure is returned unchanged; a success survives exactly when the other result is successful, else it takes over the other's error |
| `ValueResults.ValueResult.EnsureResultSupplier` | src/main/java/com/iremembr/jtraxxs/SuccessfulValueResult.java:119-124 | the same as the result form applied to the supplied result |
| `ValueResults.ValueResult.EnsureResultFunction` | src/main/java/com/iremembr/jtraxxs/SuccessfulValueResult.java:126-131 | the same as the result form applied to the function's result on the value; a failure is returned unchanged |
| `ValueResults.ValueResult.Take` | src/main/java/com/iremembr/jtraxxs/SuccessfulValueResult.java:133-137 | a success is replaced by the other result verbatim; a failure passes its error on |
| `ValueResults.ValueResult.TakeSupplier` | src/main/java/com/iremembr/jtraxxs/SuccessfulValueResult.java:139-143 | a success is replaced by the supplied result; a failure passes its error on |
| `ValueResults.ValueResult.TakeFunction` | src/main/java/com/iremembr/jtraxxs/SuccessfulValueResult.java:145-149 | a success is replaced by the function's result on its value; a failure passes its error on |
| `ValueResults.ValueResult.Map` | src/main/java/com/iremembr/jtraxxs/SuccessfulValueResult.java:151-155 | the shape is kept; a success carries f(value), a failure its error |
| `ValueResults.ValueResult.MapError` | src/main/java/com/iremembr/jtraxxs/FailedValueResult.java:156-160 | the shape is kept; a failure carries f(error), a success its value |
| `ValueResults.ValueResult.FlatMap` | src/main/java/com/iremembr/jtraxxs/SuccessfulValueResult.java:162-168 | f(value) on a success; a failure passes its error on |
| `ValueResults.ValueResult.Combine` | src/main/java/com/iremembr/jtraxxs/SuccessfulValueResult.java:170-177 | successful exactly when both are, then carrying f(value, other's value); otherwise the receiver's error, or the other's when the receiver succeeded |
| `ValueResults.ValueResult.OrElse` | src/main/java/com/iremembr/jtraxxs/FailedValueResult.java:172-175 | the value on a success, the default on a failure |
| `ValueResults.ValueResult.OrElseGet` | src/main/java/com/iremembr/jtraxxs/FailedValueResult.java:177-181 | the value on a success, f(error) on a failure |
| `ValueResults.ValueResult.OrElseThrow` | src/main/java/com/iremembr/jtraxxs/FailedValueResult.java:183-187 | returns the value on a success; throws exactly the supplier's exception on a failure |
| `ValueResults.ValueResult.Fold` | src/main/java/com/iremembr/jtraxxs/FailedValueResult.java:189-193 | success(value) on a success, failure(error) on a failure |
| `ValueResults.ValueResult.CastValue` | src/main/java/com/iremembr/jtraxxs/FailedValueResult.java:40-43 | a failure is handed back as a failure with the same error |
| `ValueResults.ValueResult.CastError` | src/main/java/com/iremembr/jtraxxs/FailedValueResult.java:45-55 | the receiver comes back unchanged exactly when the error is assignable to the target type; otherwise an illegal-argument violation |
| `ValueResults.ValueResult.ToVoidResult` | src/main/java/com/iremembr/jtraxxs/FailedValueResult.java:207-210 | a failed VoidResult with the same error and the same Result view |
| `ValueResults.ValueEquals` | src/main/java/com/iremembr/jtraxxs/SuccessfulValueResult.java:18-28 | equality is structural: successes compare values, failures compare errors, a success never equals a failure |
| `ValueResults.FromOptional` | src/main/java/com/iremembr/jtraxxs/ValueResult.java:60-63 | a null Optional is refused with a null-argument violation; a present value gives a success with it; an empty Optional gives a failure with the error |
| `ValueResults.FromNullable` | src/main/java/com/iremembr/jtraxxs/ValueResult.java:77-79 | successful exactly when the value is not null, then holding it; a failure with the error for null |
| `ValueResults.ToOptional` | src/main/java/com/iremembr/jtraxxs/SuccessfulValueResult.java:194-197 | present exactly when the result is a success with a non-null value, then holding that value |
| `ValueResults.UpCast` | src/main/java/com/iremembr/jtraxxs/ValueResult.java:81-84 | the argument comes back unchanged, same shape and payload |
| `ValueResults.Values` | src/main/java/com/iremembr/jtraxxs/ValueResult.java:117-122 | the collected values are never more than the inputs |
| `ValueResults.Errors` | src/main/java/com/iremembr/jtraxxs/ValueResult.java:117-123 | the collected errors are never more than the inputs |
| `ValueResults.SequenceOf` | src/main/java/com/iremembr/jtraxxs/ValueResult.java:124-126 | what sequence returns: ok with all values when no error was collected, otherwise fail with all errors |
| `ValueResults.Sequence` | src/main/java/com/iremembr/jtraxxs/ValueResult.java:114-127 | the loop over onSuccess/onFailure computes exactly SequenceOf: successful if and only if every input is, and on a failure the error list is non-empty |
| `ValueResults.PartitionSize` | src/main/java/com/iremembr/jtraxxs/ValueResult.java:118-123 | every input lands in exactly one of values or errors |
| `ValueResults.ErrorsEmpty` | src/main/java/com/iremembr/jtraxxs/ValueResult.java:124-126 | no error is collected if and only if every input is successful |
| `ValueResults.ValuesAppend` | src/main/java/com/iremembr/jtraxxs/ValueResult.java:118-121 | the values of concatenated inputs are both parts' values in order |
| `ValueResults.ErrorsAppend` | src/main/java/com/iremembr/jtraxxs/ValueResult.java:118-122 | the errors of concatenated inputs are both parts' errors in order |
| `ValueResults.ValuesOfSuccesses` | src/main/java/com/iremembr/jtraxxs/ValueResult.java:94-96 | when every input succeeded, the values are the inputs' values position by position |
| `ValueResults.ErrorsAreFlatErrors` | src/main/java/com/iremembr/jtraxxs/Result.java:51-56 | the errors collected by the loop are what flat-mapping errorStream over the inputs yields |
| `ValueResults.AsResults` | src/main/java/com/iremembr/jtraxxs/ValueResult.java:114-116 | each input seen through its Result view, position by position |
| `ValueResults.SequenceReportsEveryError` | src/main/java/com/iremembr/jtraxxs/ValueResult.java:90-92 | a failed sequence holds an error if and only if some input failed with it |
| `ValueResults.SequenceExamples` | src/main/java/com/iremembr/jtraxxs/ValueResult.java:98-107 | the three documented cases: `[]` gives ok([]), `[ok(1), ok(2)]` gives ok([1, 2]), `[fail("err1"), ok(2), fail("err2")]` gives fail(["err1", "err2"]) |
| `ValueResultLaws.OkHoldsValue` | src/main/java/com/iremembr/jtraxxs/ValueResult.java:22-32 | ok(v) is successful with value v (null included), without an error, with stream `[v]` |
| `ValueResultLaws.FailHoldsError` | src/main/java/com/iremembr/jtraxxs/ValueResult.java:34-44 | fail(e) has failed with error e (null included), without a value, with error stream `[e]` |
| `ValueResultLaws.NullPayloads` | src/test/java/com/iremembr/jtraxxs/ValueResultTest.java:31-50 | ok(null).value() and fail(null).error() return null |
| `ValueResultLaws.FailureShortCircuits` | src/main/java/com/iremembr/jtraxxs/FailedValueResult.java:106-170 | a failure is returned unchanged by all six guards, and take, map, flatMap and combine pass its error on without consulting their arguments |
| `ValueResultLaws.SuccessGuards` | src/main/java/com/iremembr/jtraxxs/SuccessfulValueResult.java:96-131 | a success survives a true flag and a successful other result, and otherwise becomes the corresponding failure |
| `ValueResultLaws.EnsureIsEnsureResult` | src/main/java/com/iremembr/jtraxxs/ValueResult.java:145-188 | the flag guard is the result guard fed with a result that fails exactly when the flag is false |
| `ValueResultLaws.EnsurePredicateIsEnsureResultFunction` | src/main/java/com/iremembr/jtraxxs/ValueResult.java:166-209 | the predicate guard is the function guard whose function fails exactly when the predicate is false |
| `ValueResultLaws.EnsureIdempotent` | src/main/java/com/iremembr/jtraxxs/SuccessfulValueResult.java:113-117 | guarding twice with the same result is guarding once |
| `ValueResultLaws.EnsureWithValueResult` | src/test/java/com/iremembr/jtraxxs/SuccessfulValueResultTest.java:232-282 | a success guarded by a ValueResult takes over that result's error when it failed and stays itself otherwise |
| `ValueResultLaws.MapFunctor` | src/main/java/com/iremembr/jtraxxs/ValueResult.java:245-254 | map with the identity changes nothing, and two maps are one map of the composition |
| `ValueResultLaws.MapErrorFunctor` | src/main/java/com/iremembr/jtraxxs/ValueResult.java:272-280 | mapError with the identity changes nothing, and two mapErrors are one of the composition |
| `ValueResultLaws.MapMapErrorCommute` | src/main/java/com/iremembr/jtraxxs/ValueResult.java:245-280 | map and mapError commute |
| `ValueResultLaws.FlatMapMonad` | src/main/java/com/iremembr/jtraxxs/ValueResult.java:282-292 | ok is a left and right unit of flatMap, and flatMap is associative |
| `ValueResultLaws.ChainingIsFlatMap` | src/main/java/com/iremembr/jtraxxs/ValueResult.java:211-292 | map, take(result), take(function) and combine are flatMap with a particular function |
| `ValueResultLaws.FoldIsUniversal` | src/main/java/com/iremembr/jtraxxs/SuccessfulValueResult.java:151-203 | map, mapError, flatMap, orElse, orElseGet, orElseThrow, value, error, stream and isSuccessful are each an instance of fold |
| `ValueResultLaws.ToOptionalIsFold` | src/main/java/com/iremembr/jtraxxs/SuccessfulValueResult.java:194-197 | toOptional is the fold giving Optional.ofNullable(value) on a success and an empty Optional on a failure |
| `ValueResultLaws.OrElseThrowAgreesWithOrElse` | src/main/java/com/iremembr/jtraxxs/ValueResult.java:335-371 | orElseThrow returns what orElse returns on a success and throws the supplier's exception on a failure |
| `ValueResultLaws.OnBothIsOnSuccessThenOnFailure` | src/main/java/com/iremembr/jtraxxs/SuccessfulValueResult.java:72-94 | onBoth has the same result and the same effect as onSuccess followed by onFailure |
| `ValueResultLaws.ToOptionalFromNullable` | src/main/java/com/iremembr/jtraxxs/ValueResult.java:77-79 | toOptional(fromNullable(x, e)) is Optional.ofNullable(x) |
| `ValueResultLaws.FromOptionalOfNullable` | src/main/java/com/iremembr/jtraxxs/ValueResult.java:60-79 | fromOptional(Optional.ofNullable(x), e) is accepted and agrees with fromNullable(x, e) |
| `ValueResultLaws.ToVoidResultKeepsError` | src/test/java/com/iremembr/jtraxxs/FailedValueResultTest.java:402-408 | a failure converted to a VoidResult has failed with the same error |
| `VoidResultLaws.Constructors` | src/main/java/jtraxxs/VoidResult.java:26-45 | ok() is successful without an error; fail(e) has failed with error e and error stream `[e]` |
| `VoidResultLaws.FailureIgnoresGuards` | src/main/java/jtraxxs/FailedVoidResult.java:82-100 | all four guards return a failure unchanged |
| `VoidResultLaws.EnsureIsEnsureResult` | src/main/java/jtraxxs/VoidResult.java:55-73 | the flag guard is the result guard fed with a result that fails exactly when the flag is false |
| `VoidResultLaws.GuardedSuccessIsTheOther` | src/test/java/jtraxxs/SuccessfulVoidResultTest.java:151-205 | ok() guarded by another result has that result's shape and error |
| `VoidResultLaws.MapErrorFunctor` | src/main/java/jtraxxs/FailedVoidResult.java:102-106 | mapError with the identity changes nothing, and two mapErrors are one of the composition |
| `VoidResultLaws.FoldIsUniversal` | src/main/java/jtraxxs/FailedVoidResult.java:108-112 | mapError, error, errorStream, isSuccessful and the flag guard are each an instance of fold |
| `VoidResultLaws.OnBothIsOnSuccessThenOnFailure` | src/main/java/jtraxxs/FailedVoidResult.java:56-80 | onBoth has the same result and the same effect as onSuccess followed by onFailure |
| `VoidResultLaws.SequenceAppend` | src/main/java/jtraxxs/VoidResult.java:47-53 | sequence of a concatenation fails exactly when a part fails, with both parts' errors in order |
| `VoidResultLaws.SequenceExamples` | src/test/java/jtraxxs/VoidResultTest.java:36-55 | sequence([]) and sequence([ok, ok]) are ok(); [fail("err1"), ok, fail("err2")] gives fail(["err1", "err2"]) |

## Left out

- `toString` and `hashCode`: they format or hash the payload through its own Java methods. Equality is modelled; hashing, including the constant hash code of `SuccessfulVoidResult`, is not.
- `requireNonNull` on callbacks and arguments: a Dafny function value or datatype value cannot be null, so those `NullPointerException`s cannot arise. Only the null check of `fromOptional` is modelled, because there the Optional is a value the caller may pass as null.
- Callbacks that return null: a modelled supplier or function always returns a value of its type, so these null paths are not modelled:
  - `flatMap` rejects a null result with `requireNonNull(result)`.
  - `take(Supplier)` and `take(Function)` pass a null result straight through.
  - `ensure(Supplier<Boolean>)` unboxes a null `Boolean`, which throws a `NullPointerException`.
  - `ensure(Supplier<Result>)` and `ensure(Function)` call `hasFailed()` on a null result, which also throws.
  - `orElseThrow` throws a `NullPointerException` when the exception supplier returns null.
- `requireNonNull(results)` in both `sequence` methods, and a null element inside the iterable given to either `sequence` (calling a hook or `errorStream` on it would throw a `NullPointerException`): a Dafny sequence and its elements cannot be null.
- Java generic variance and unchecked casts: `upCast` is the identity.
- `ValueResults.ValueResult.CastError`, `VoidResults.VoidResult.CastError`: these keep the error type parameter `E` instead of changing it to the target class, as Java's `castError` does. (`ValueResults.ValueResult.CastValue` does change the value type parameter.) Whether the error's runtime class is assignable is the abstract predicate `assignable`; reflection is not modelled.
- `castError` on a null error: `error.getClass()` would throw a `NullPointerException`, which the abstract `assignable` predicate does not distinguish.
- Successful-branch `castValue`, `castError` and `toVoidResult`: the abstract classes declare them, but the successful classes that implement them are not among the files modelled. The `com/iremembr/jtraxxs/SuccessfulValueResult.java` in the modelled version defines none of the three, so `ValueResults.ValueResult.CastValue`, `ValueResults.ValueResult.CastError` and `ValueResults.ValueResult.ToVoidResult` require a failure. The `com/iremembr/jtraxxs` `SuccessfulVoidResult` is not part of this model; the successful branch of `VoidResults.VoidResult.CastError` follows its tests (src/test/java/com/iremembr/jtraxxs/SuccessfulVoidResultTest.java:41-59), which expect a success for any target class.
- Side effects of the suppliers and functions passed to guards, `take`, `map`, `flatMap`, `combine`, `orElseGet`, `orElseThrow` and `fold`: these are modelled as pure functions. "Never called on the other shape" shows as the result not depending on them. Only hooks carry an explicit state.
- Streams are modelled as sequences. Laziness and single use are not modelled.
- The unmodifiable-collection wrappers of `sequence`: a Dafny sequence is already immutable.
- Equality between results with different type arguments, and `equals` against objects of other classes: the model compares results of one type.
- The older `jtraxxs` copies of `FailedValueResult` and `FailedVoidResult` are covered by the same datatypes. Their bodies match the current ones for every member they have.
