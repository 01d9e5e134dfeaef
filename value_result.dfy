/**
 * ValueResult<V, E>: the outcome of a computation that yields a value of
 * type V or fails with an error of type E. Ok(value) is SuccessfulValueResult,
 * Fail(error) is FailedValueResult; every member takes its successful branch
 * from the first class and its failed branch from the second. Values are
 * immutable: a combinator either hands back the same result or a new one.
 *
 * Callbacks that are run only for their side effects (Runnable, Consumer) are
 * state transformers over a caller-chosen state S, as in VoidResults.
 */
module ValueResults {
  import opened Wrappers
  import opened Results
  import VoidResults

  datatype ValueResult<V, E> = Ok(value: V) | Fail(error: E) {

    /** The result seen as a Result<E>. */
    function AsResult(): (r: Result<E>)
      ensures r.IsSuccessful() <==> Ok?
      ensures Fail? ==> r.error == error
    {
      match this
      case Ok(_) => Successful
      case Fail(e) => Failed(e)
    }

    predicate IsSuccessful() {
      Ok?
    }

    /** Inherited from Result: the negation of IsSuccessful. */
    predicate HasFailed()
      ensures HasFailed() <==> !IsSuccessful()
    {
      AsResult().HasFailed()
    }

    /** value(): the held value (null included), or an invalid-state violation on a failure. */
    function Value(): (c: Checked<V>)
      ensures c.Returned? <==> IsSuccessful()
      ensures IsSuccessful() ==> c.value == value
      ensures HasFailed() ==> c.violation == InvalidState
    {
      match this
      case Ok(v) => Returned(v)
      case Fail(_) => Violated(InvalidState)
    }

    /** error(): the held error (null included), or an invalid-state violation on a success. */
    function Error(): (c: Checked<E>)
      ensures c.Returned? <==> HasFailed()
      ensures HasFailed() ==> c.value == error
      ensures IsSuccessful() ==> c.violation == InvalidState
      ensures c == AsResult().Error()
    {
      match this
      case Ok(_) => Violated(InvalidState)
      case Fail(e) => Returned(e)
    }

    /** stream(): the single value on a success, empty on a failure. */
    function Stream(): (s: seq<V>)
      ensures |s| <= 1
      ensures s == [] <==> HasFailed()
      ensures IsSuccessful() ==> s == [value]
    {
      match this
      case Ok(v) => [v]
      case Fail(_) => []
    }

    /** errorStream(): empty on a success, the single error on a failure. */
    function ErrorStream(): (s: seq<E>)
      ensures |s| <= 1
      ensures s == [] <==> IsSuccessful()
      ensures HasFailed() ==> s == [error]
      ensures s == AsResult().ErrorStream()
    {
      match this
      case Ok(_) => []
      case Fail(e) => [e]
    }

    // ---- hooks ----

    /** onSuccess(Runnable): runs the runnable once on a success only. */
    function OnSuccessRun<S>(run: S -> S, s: S): (out: (ValueResult<V, E>, S))
      ensures out.0 == this
      ensures IsSuccessful() ==> out.1 == run(s)
      ensures HasFailed() ==> out.1 == s
    {
      match this
      case Ok(_) => (this, run(s))
      case Fail(_) => (this, s)
    }

    /** onSuccess(Consumer): hands the value to the consumer once on a success only. */
    function OnSuccess<S>(consume: (S, V) -> S, s: S): (out: (ValueResult<V, E>, S))
      ensures out.0 == this
      ensures IsSuccessful() ==> out.1 == consume(s, value)
      ensures HasFailed() ==> out.1 == s
    {
      match this
      case Ok(v) => (this, consume(s, v))
      case Fail(_) => (this, s)
    }

    /** onFailure(Runnable): runs the runnable once on a failure only. */
    function OnFailureRun<S>(run: S -> S, s: S): (out: (ValueResult<V, E>, S))
      ensures out.0 == this
      ensures IsSuccessful() ==> out.1 == s
      ensures HasFailed() ==> out.1 == run(s)
    {
      match this
      case Ok(_) => (this, s)
      case Fail(_) => (this, run(s))
    }

    /** onFailure(Consumer): hands the error to the consumer once on a failure only. */
    function OnFailure<S>(consume: (S, E) -> S, s: S): (out: (ValueResult<V, E>, S))
      ensures out.0 == this
      ensures IsSuccessful() ==> out.1 == s
      ensures HasFailed() ==> out.1 == consume(s, error)
    {
      match this
      case Ok(_) => (this, s)
      case Fail(e) => (this, consume(s, e))
    }

    /** onBoth(success, failure): exactly one of the two consumers runs, once. */
    function OnBoth<S>(success: (S, V) -> S, failure: (S, E) -> S, s: S): (out: (ValueResult<V, E>, S))
      ensures out.0 == this
      ensures IsSuccessful() ==> out.1 == success(s, value)
      ensures HasFailed() ==> out.1 == failure(s, error)
    {
      match this
      case Ok(v) => (this, success(s, v))
      case Fail(e) => (this, failure(s, e))
    }

    // ---- guards ----

    /** ensure(flag, error): a success survives only a true flag; a failure is kept as it is. */
    function Ensure(flag: bool, error: E): (r: ValueResult<V, E>)
      ensures HasFailed() ==> r == this
      ensures IsSuccessful() && flag ==> r == this
      ensures IsSuccessful() && !flag ==> r.HasFailed() && r.Error() == Returned(error)
    {
      match this
      case Ok(_) => if flag then this else Fail(error)
      case Fail(_) => this
    }

    /** ensure(Supplier<Boolean>, error): the flag form applied to the supplied flag. */
    function EnsureSupplier(supplier: () -> bool, error: E): (r: ValueResult<V, E>)
      ensures r == Ensure(supplier(), error)
    {
      match this
      case Ok(_) => Ensure(supplier(), error)
      case Fail(_) => this
    }

    /** ensure(Predicate, error): the flag form applied to the predicate on the value. */
    function EnsurePredicate(test: V -> bool, error: E): (r: ValueResult<V, E>)
      ensures IsSuccessful() ==> r == Ensure(test(value), error)
      ensures HasFailed() ==> r == this
    {
      match this
      case Ok(v) => if test(v) then this else Fail(error)
      case Fail(_) => this
    }

    /** ensure(Result): a success takes over the other result's failure; a failure is kept. */
    function EnsureResult(other: Result<E>): (r: ValueResult<V, E>)
      ensures HasFailed() ==> r == this
      ensures IsSuccessful() ==> (r.IsSuccessful() <==> other.IsSuccessful())
      ensures IsSuccessful() && other.IsSuccessful() ==> r == this
      ensures IsSuccessful() && other.HasFailed() ==> r.Error() == other.Error()
    {
      match this
      case Ok(_) => if other.HasFailed() then Fail(other.error) else this
      case Fail(_) => this
    }

    /** ensure(Supplier<Result>): the result form applied to the supplied result. */
    function EnsureResultSupplier(supplier: () -> Result<E>): (r: ValueResult<V, E>)
      ensures r == EnsureResult(supplier())
    {
      match this
      case Ok(_) => EnsureResult(supplier())
      case Fail(_) => this
    }

    /** ensure(Function<V, Result>): the result form applied to the function's result on the value. */
    function EnsureResultFunction(fn: V -> Result<E>): (r: ValueResult<V, E>)
      ensures IsSuccessful() ==> r == EnsureResult(fn(value))
      ensures HasFailed() ==> r == this
    {
      match this
      case Ok(v) => EnsureResult(fn(v))
      case Fail(_) => this
    }

    // ---- chaining ----

    /** take(other): a success is replaced by other verbatim; a failure keeps its error. */
    function Take<W>(other: ValueResult<W, E>): (r: ValueResult<W, E>)
      ensures IsSuccessful() ==> r == other
      ensures HasFailed() ==> r.HasFailed() && r.Error() == Error()
    {
      match this
      case Ok(_) => other
      case Fail(e) => Fail(e)
    }

    /** take(Supplier): the plain form applied to the supplied result. */
    function TakeSupplier<W>(supplier: () -> ValueResult<W, E>): (r: ValueResult<W, E>)
      ensures r == Take(supplier())
    {
      match this
      case Ok(_) => supplier()
      case Fail(e) => Fail(e)
    }

    /** take(Function): a success is replaced by the function's result on the value. */
    function TakeFunction<W>(fn: V -> ValueResult<W, E>): (r: ValueResult<W, E>)
      ensures IsSuccessful() ==> r == fn(value)
      ensures HasFailed() ==> r.HasFailed() && r.Error() == Error()
    {
      match this
      case Ok(v) => fn(v)
      case Fail(e) => Fail(e)
    }

    /** map(f): a success carries f(value); a failure keeps its error. */
    function Map<W>(f: V -> W): (r: ValueResult<W, E>)
      ensures r.IsSuccessful() <==> IsSuccessful()
      ensures IsSuccessful() ==> r.Value() == Returned(f(value))
      ensures HasFailed() ==> r.Error() == Error()
    {
      match this
      case Ok(v) => Ok(f(v))
      case Fail(e) => Fail(e)
    }

    /** mapError(f): a success keeps its value; a failure carries f(error). */
    function MapError<F>(f: E -> F): (r: ValueResult<V, F>)
      ensures r.IsSuccessful() <==> IsSuccessful()
      ensures IsSuccessful() ==> r.Value() == Value()
      ensures HasFailed() ==> r.Error() == Returned(f(error))
    {
      match this
      case Ok(v) => Ok(v)
      case Fail(e) => Fail(f(e))
    }

    /** flatMap(f): a success becomes f(value) itself; a failure keeps its error. */
    function FlatMap<W>(f: V -> ValueResult<W, E>): (r: ValueResult<W, E>)
      ensures IsSuccessful() ==> r == f(value)
      ensures HasFailed() ==> r.HasFailed() && r.Error() == Error()
    {
      match this
      case Ok(v) => f(v)
      case Fail(e) => Fail(e)
    }

    /**
     * combine(f, other): successful only when both are, carrying f of both
     * values; otherwise this result's error, or else the other's.
     */
    function Combine<W, X>(f: (V, W) -> X, other: ValueResult<W, E>): (r: ValueResult<X, E>)
      ensures r.IsSuccessful() <==> IsSuccessful() && other.IsSuccessful()
      ensures r.IsSuccessful() ==> r.value == f(value, other.value)
      ensures HasFailed() ==> r.Error() == Error()
      ensures IsSuccessful() && other.HasFailed() ==> r.Error() == other.Error()
    {
      match this
      case Ok(v) => if other.IsSuccessful() then Ok(f(v, other.value)) else Fail(other.error)
      case Fail(e) => Fail(e)
    }

    // ---- extraction ----

    /** orElse(other): the value on a success, the given default on a failure. */
    function OrElse(other: V): (x: V)
      ensures IsSuccessful() ==> x == value
      ensures HasFailed() ==> x == other
    {
      match this
      case Ok(v) => v
      case Fail(_) => other
    }

    /** orElseGet(f): the value on a success, f(error) on a failure. */
    function OrElseGet(f: E -> V): (x: V)
      ensures IsSuccessful() ==> x == value
      ensures HasFailed() ==> x == f(error)
    {
      match this
      case Ok(v) => v
      case Fail(e) => f(e)
    }

    /** orElseThrow(supplier): returns the value, or throws the exception the supplier makes. */
    function OrElseThrow<X>(exceptionSupplier: () -> X): (t: Thrown<V, X>)
      ensures t.Returns? <==> IsSuccessful()
      ensures IsSuccessful() ==> t.value == value
      ensures HasFailed() ==> t.exception == exceptionSupplier()
    {
      match this
      case Ok(v) => Returns(v)
      case Fail(_) => Throws(exceptionSupplier())
    }

    /** fold(success, failure): success(value) on a success, failure(error) on a failure. */
    function Fold<T>(success: V -> T, failure: E -> T): (t: T)
      ensures IsSuccessful() ==> t == success(value)
      ensures HasFailed() ==> t == failure(error)
    {
      match this
      case Ok(v) => success(v)
      case Fail(e) => failure(e)
    }

    // ---- members implemented only by FailedValueResult ----

    /** castValue on a failure: the same failure, whatever the target value type. */
    function CastValue<W>(): (r: ValueResult<W, E>)
      requires Fail?
      ensures r.HasFailed() && r.Error() == Error()
    {
      Fail(error)
    }

    /**
     * castError on a failure: `assignable` says whether the error's runtime
     * class is assignable to the target class. The result itself is returned
     * unchanged when it is, otherwise an illegal-argument violation.
     */
    function CastError(assignable: E -> bool): (c: Checked<ValueResult<V, E>>)
      requires Fail?
      ensures c.Returned? <==> assignable(error)
      ensures c.Returned? ==> c.value == this
      ensures !assignable(error) ==> c.violation == IllegalArgument
    {
      if assignable(error) then Returned(this) else Violated(IllegalArgument)
    }

    /** toVoidResult on a failure: a failed VoidResult with the same error. */
    function ToVoidResult(): (r: VoidResults.VoidResult<E>)
      requires Fail?
      ensures r.HasFailed() && r.Error() == Error()
      ensures r.AsResult() == AsResult()
    {
      VoidResults.VFail(error)
    }
  }

  // ---- static members of ValueResult ----

  /** equals(): successes compare their values, failures their errors, and the two never meet. */
  function ValueEquals<V(==), E(==)>(a: ValueResult<V, E>, b: ValueResult<V, E>): (eq: bool)
    ensures eq <==> a == b
    ensures a.IsSuccessful() && b.IsSuccessful() ==> (eq <==> a.value == b.value)
    ensures a.HasFailed() && b.HasFailed() ==> (eq <==> a.error == b.error)
    ensures a.IsSuccessful() != b.IsSuccessful() ==> !eq
  {
    match (a, b)
    case (Ok(x), Ok(y)) => x == y
    case (Fail(x), Fail(y)) => x == y
    case _ => false
  }

  /**
   * fromOptional(optional, error): the Optional's value as a success, or a
   * failure with the error when it is empty; a null Optional is refused.
   */
  function FromOptional<V, E>(optional: Nullable<Option<V>>, error: E): (c: Checked<ValueResult<V, E>>)
    ensures c.Returned? <==> optional.Ref?
    ensures optional.Null? ==> c.violation == NullArgument
    ensures optional.Ref? ==> (c.value.IsSuccessful() <==> optional.referent.Some?)
    ensures optional.Ref? && optional.referent.Some? ==> c.value.Value() == Returned(optional.referent.value)
    ensures optional.Ref? && optional.referent.None? ==> c.value.Error() == Returned(error)
  {
    match optional
    case Null => Violated(NullArgument)
    case Ref(Some(v)) => Returned(Ok(v))
    case Ref(None) => Returned(Fail(error))
  }

  /** fromNullable(value, error): a non-null value as a success, a failure with the error for null. */
  function FromNullable<T, E>(value: Nullable<T>, error: E): (r: ValueResult<Nullable<T>, E>)
    ensures r.IsSuccessful() <==> value.Ref?
    ensures r.IsSuccessful() ==> r.Value() == Returned(value)
    ensures value.Null? ==> r.Error() == Returned(error)
  {
    if value.Null? then Fail(error) else Ok(value)
  }

  /** toOptional(): Optional.ofNullable(value) on a success, an empty Optional on a failure. */
  function ToOptional<T, E>(r: ValueResult<Nullable<T>, E>): (o: Option<T>)
    ensures o.Some? <==> r.IsSuccessful() && r.value.Ref?
    ensures o.Some? ==> o.value == r.value.referent
  {
    match r
    case Ok(v) => OfNullable(v)
    case Fail(_) => None
  }

  /** upCast(result): only the static types change; the result is handed back unchanged. */
  function UpCast<V, E>(result: ValueResult<V, E>): (r: ValueResult<V, E>)
    ensures r == result
  {
    result
  }

  // ---- sequence ----

  /** The values of the successful results of rs, in list order. */
  function Values<V, E>(rs: seq<ValueResult<V, E>>): (vs: seq<V>)
    ensures |vs| <= |rs|
  {
    if rs == [] then [] else Values(rs[..|rs| - 1]) + rs[|rs| - 1].Stream()
  }

  /** The errors of the failed results of rs, in list order. */
  function Errors<V, E>(rs: seq<ValueResult<V, E>>): (es: seq<E>)
    ensures |es| <= |rs|
  {
    if rs == [] then [] else Errors(rs[..|rs| - 1]) + rs[|rs| - 1].ErrorStream()
  }

  /** What sequence(results) returns: all values when nothing failed, otherwise all errors. */
  function SequenceOf<V, E>(results: seq<ValueResult<V, E>>): ValueResult<seq<V>, seq<E>>
  {
    if Errors(results) == [] then Ok(Values(results)) else Fail(Errors(results))
  }

  /**
   * sequence(results): runs through the inputs once, adding each success's
   * value to `values` with onSuccess and each failure's error to `errors`
   * with onFailure, then succeeds with the values when no error was collected.
   */
  method Sequence<V, E>(results: seq<ValueResult<V, E>>) returns (r: ValueResult<seq<V>, seq<E>>)
    ensures r == SequenceOf(results)
    ensures r.IsSuccessful() <==> forall i :: 0 <= i < |results| ==> results[i].IsSuccessful()
    ensures r.HasFailed() ==> r.error != []
  {
    var values: seq<V> := [];
    var errors: seq<E> := [];
    for i := 0 to |results|
      invariant values == Values(results[..i])
      invariant errors == Errors(results[..i])
      invariant |values| + |errors| == i
    {
      assert results[..i + 1][..i] == results[..i];
      var afterSuccess := results[i].OnSuccess((acc: seq<V>, v: V) => acc + [v], values);
      values := afterSuccess.1;
      var afterFailure := results[i].OnFailure((acc: seq<E>, e: E) => acc + [e], errors);
      errors := afterFailure.1;
    }
    assert results[..|results|] == results;
    ErrorsEmpty(results);
    r := if errors == [] then Ok(values) else Fail(errors);
  }

  /** Every input lands in exactly one of the two lists. */
  lemma {:induction false} PartitionSize<V, E>(rs: seq<ValueResult<V, E>>)
    ensures |Values(rs)| + |Errors(rs)| == |rs|
  {
    if rs != [] {
      PartitionSize(rs[..|rs| - 1]);
    }
  }

  /** No error is collected exactly when every input is successful. */
  lemma {:induction false} ErrorsEmpty<V, E>(rs: seq<ValueResult<V, E>>)
    ensures Errors(rs) == [] <==> forall i :: 0 <= i < |rs| ==> rs[i].IsSuccessful()
  {
    if rs != [] {
      var init := rs[..|rs| - 1];
      ErrorsEmpty(init);
      if rs[|rs| - 1].IsSuccessful() {
        forall i | 0 <= i < |rs| - 1 ensures rs[i] == init[i] {}
      }
    }
  }

  /** The values of a concatenation are the values of both parts, in order. */
  lemma {:induction false} ValuesAppend<V, E>(rs: seq<ValueResult<V, E>>, qs: seq<ValueResult<V, E>>)
    ensures Values(rs + qs) == Values(rs) + Values(qs)
  {
    if qs == [] {
      assert rs + qs == rs;
    } else {
      var init := qs[..|qs| - 1];
      var both := rs + qs;
      assert both[..|both| - 1] == rs + init;
      assert both[|both| - 1] == qs[|qs| - 1];
      ValuesAppend(rs, init);
    }
  }

  /** The errors of a concatenation are the errors of both parts, in order. */
  lemma ErrorsAppend<V, E>(rs: seq<ValueResult<V, E>>, qs: seq<ValueResult<V, E>>)
    ensures Errors(rs + qs) == Errors(rs) + Errors(qs)
  {
    ErrorsAreFlatErrors(rs + qs);
    ErrorsAreFlatErrors(rs);
    ErrorsAreFlatErrors(qs);
    assert AsResults(rs + qs) == AsResults(rs) + AsResults(qs);
    FlatErrorsAppend(AsResults(rs), AsResults(qs));
  }

  /** When every input succeeded, the values are exactly the inputs' values, position by position. */
  lemma {:induction false} ValuesOfSuccesses<V, E>(rs: seq<ValueResult<V, E>>)
    requires forall i :: 0 <= i < |rs| ==> rs[i].Ok?
    ensures |Values(rs)| == |rs|
    ensures forall i :: 0 <= i < |rs| ==> Values(rs)[i] == rs[i].value
  {
    if rs != [] {
      var init := rs[..|rs| - 1];
      ValuesOfSuccesses(init);
    }
  }

  /** The collected errors are what flat-mapping errorStream over the inputs yields. */
  lemma {:induction false} ErrorsAreFlatErrors<V, E>(rs: seq<ValueResult<V, E>>)
    ensures Errors(rs) == FlatErrors(AsResults(rs))
  {
    if rs != [] {
      var init := rs[..|rs| - 1];
      var last := rs[|rs| - 1];
      ErrorsAreFlatErrors(init);
      assert AsResults(rs) == AsResults(init) + [last.AsResult()];
      FlatErrorsAppend(AsResults(init), [last.AsResult()]);
      assert FlatErrors([last.AsResult()]) == last.AsResult().ErrorStream();
    }
  }

  /** Each result of rs seen as a Result<E>. */
  function AsResults<V, E>(rs: seq<ValueResult<V, E>>): (vs: seq<Result<E>>)
    ensures |vs| == |rs|
    ensures forall i :: 0 <= i < |rs| ==> vs[i] == rs[i].AsResult()
  {
    seq(|rs|, i requires 0 <= i < |rs| => rs[i].AsResult())
  }

  /** A failed sequence reports a given error exactly when some input failed with it. */
  lemma SequenceReportsEveryError<V, E>(results: seq<ValueResult<V, E>>, e: E)
    ensures SequenceOf(results).HasFailed() ==>
      (e in SequenceOf(results).error <==> exists i :: 0 <= i < |results| && results[i].HasFailed() && results[i].error == e)
  {
    ErrorsAreFlatErrors(results);
    FlatErrorsMembers(AsResults(results), e);
    var vs := AsResults(results);
    if exists i :: 0 <= i < |vs| && vs[i].HasFailed() && vs[i].error == e {
      var i :| 0 <= i < |vs| && vs[i].HasFailed() && vs[i].error == e;
      assert results[i].HasFailed() && results[i].error == e;
    }
  }

  /** The three cases of the documentation of sequence, with integers and strings. */
  lemma SequenceExamples()
    ensures SequenceOf<int, string>([]) == Ok([])
    ensures SequenceOf<int, string>([Ok(1), Ok(2)]) == Ok([1, 2])
    ensures SequenceOf<int, string>([Fail("err1"), Ok(2), Fail("err2")]) == Fail(["err1", "err2"])
  {
    var two: seq<ValueResult<int, string>> := [Ok(1), Ok(2)];
    ValuesAppend<int, string>([Ok(1)], [Ok(2)]);
    ErrorsAppend<int, string>([Ok(1)], [Ok(2)]);
    assert two == [Ok(1)] + [Ok(2)];
    assert Values(two) == [1, 2];
    assert Errors(two) == [];
    var three: seq<ValueResult<int, string>> := [Fail("err1"), Ok(2), Fail("err2")];
    ErrorsAppend<int, string>([Fail("err1")], [Ok(2)]);
    ErrorsAppend<int, string>([Fail("err1"), Ok(2)], [Fail("err2")]);
    assert three == [Fail("err1"), Ok(2)] + [Fail("err2")];
    assert [Fail("err1"), Ok(2)] == [Fail("err1")] + [Ok(2)];
    assert Errors(three) == ["err1", "err2"];
  }
}
