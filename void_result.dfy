/**
 * VoidResult<E>: the outcome of a computation that returns nothing but may
 * fail. VOk is the field-less successful result, VFail(error) the failed one.
 * Each member takes the successful branch from SuccessfulVoidResult and the
 * failed branch from FailedVoidResult.
 *
 * Callbacks with side effects (Runnable, Consumer) are modelled as state
 * transformers over a caller-chosen state S: a hook returns the result it was
 * called on together with the new state, so "the callback ran once" reads
 * `state == run(s)` and "it did not run" reads `state == s`.
 */
module VoidResults {
  import opened Wrappers
  import opened Results

  datatype VoidResult<E> = VOk | VFail(error: E) {

    /** The result seen as a Result<E>. */
    function AsResult(): (r: Result<E>)
      ensures r.IsSuccessful() <==> VOk?
      ensures VFail? ==> r.error == error
    {
      match this
      case VOk => Successful
      case VFail(e) => Failed(e)
    }

    predicate IsSuccessful() {
      VOk?
    }

    /** Inherited from Result: the negation of IsSuccessful. */
    predicate HasFailed()
      ensures HasFailed() <==> !IsSuccessful()
    {
      AsResult().HasFailed()
    }

    /** error(): the held error, or an invalid-state violation on a success. */
    function Error(): (c: Checked<E>)
      ensures c.Returned? <==> HasFailed()
      ensures HasFailed() ==> c.value == error
      ensures IsSuccessful() ==> c.violation == InvalidState
    {
      match this
      case VOk => Violated(InvalidState)
      case VFail(e) => Returned(e)
    }

    /** errorStream(): empty on a success, the single error on a failure. */
    function ErrorStream(): (s: seq<E>)
      ensures |s| <= 1
      ensures s == [] <==> IsSuccessful()
      ensures HasFailed() ==> s == [error]
      ensures s == AsResult().ErrorStream()
    {
      match this
      case VOk => []
      case VFail(e) => [e]
    }

    /** onSuccess(Runnable): runs the runnable once on a success only. */
    function OnSuccessRun<S>(run: S -> S, s: S): (out: (VoidResult<E>, S))
      ensures out.0 == this
      ensures IsSuccessful() ==> out.1 == run(s)
      ensures HasFailed() ==> out.1 == s
    {
      match this
      case VOk => (this, run(s))
      case VFail(_) => (this, s)
    }

    /** onFailure(Runnable): runs the runnable once on a failure only. */
    function OnFailureRun<S>(run: S -> S, s: S): (out: (VoidResult<E>, S))
      ensures out.0 == this
      ensures IsSuccessful() ==> out.1 == s
      ensures HasFailed() ==> out.1 == run(s)
    {
      match this
      case VOk => (this, s)
      case VFail(_) => (this, run(s))
    }

    /** onFailure(Consumer): hands the error to the consumer once on a failure only. */
    function OnFailure<S>(consume: (S, E) -> S, s: S): (out: (VoidResult<E>, S))
      ensures out.0 == this
      ensures IsSuccessful() ==> out.1 == s
      ensures HasFailed() ==> out.1 == consume(s, error)
    {
      match this
      case VOk => (this, s)
      case VFail(e) => (this, consume(s, e))
    }

    /** onBoth(Runnable, Consumer): exactly one of the two callbacks runs, once. */
    function OnBoth<S>(success: S -> S, failure: (S, E) -> S, s: S): (out: (VoidResult<E>, S))
      ensures out.0 == this
      ensures IsSuccessful() ==> out.1 == success(s)
      ensures HasFailed() ==> out.1 == failure(s, error)
    {
      match this
      case VOk => (this, success(s))
      case VFail(e) => (this, failure(s, e))
    }

    /** ensure(flag, error): a success survives only a true flag; a failure is kept as it is. */
    function Ensure(flag: bool, error: E): (r: VoidResult<E>)
      ensures HasFailed() ==> r == this
      ensures IsSuccessful() && flag ==> r == this
      ensures IsSuccessful() && !flag ==> r.HasFailed() && r.Error() == Returned(error)
    {
      match this
      case VOk => if flag then this else VFail(error)
      case VFail(_) => this
    }

    /** ensure(Supplier<Boolean>, error): the flag form applied to the supplied flag. */
    function EnsureSupplier(supplier: () -> bool, error: E): (r: VoidResult<E>)
      ensures r == Ensure(supplier(), error)
    {
      match this
      case VOk => Ensure(supplier(), error)
      case VFail(_) => this
    }

    /** ensure(Result): a success takes over the other result's failure; a failure is kept. */
    function EnsureResult(other: Result<E>): (r: VoidResult<E>)
      ensures HasFailed() ==> r == this
      ensures IsSuccessful() ==> (r.IsSuccessful() <==> other.IsSuccessful())
      ensures IsSuccessful() && other.HasFailed() ==> r.Error() == other.Error()
    {
      match this
      case VOk => if other.HasFailed() then VFail(other.error) else this
      case VFail(_) => this
    }

    /** ensure(Supplier<Result>): the result form applied to the supplied result. */
    function EnsureResultSupplier(supplier: () -> Result<E>): (r: VoidResult<E>)
      ensures r == EnsureResult(supplier())
    {
      match this
      case VOk => EnsureResult(supplier())
      case VFail(_) => this
    }

    /** mapError(f): a success stays a success; a failure carries f(error). */
    function MapError<F>(f: E -> F): (r: VoidResult<F>)
      ensures r.IsSuccessful() <==> IsSuccessful()
      ensures HasFailed() ==> r.Error() == Returned(f(error))
    {
      match this
      case VOk => VOk
      case VFail(e) => VFail(f(e))
    }

    /** fold(success, failure): the supplier's value on a success, failure(error) otherwise. */
    function Fold<T>(success: () -> T, failure: E -> T): (t: T)
      ensures IsSuccessful() ==> t == success()
      ensures HasFailed() ==> t == failure(error)
    {
      match this
      case VOk => success()
      case VFail(e) => failure(e)
    }

    /**
     * castError(clazz): a success comes back unchanged whatever the target
     * class. On a failure, `assignable` says whether the error's runtime class
     * is assignable to the target class: the result itself is returned when it
     * is, otherwise an illegal-argument violation.
     */
    function CastError(assignable: E -> bool): (c: Checked<VoidResult<E>>)
      ensures c.Returned? <==> IsSuccessful() || assignable(error)
      ensures c.Returned? ==> c.value == this
      ensures HasFailed() && !assignable(error) ==> c.violation == IllegalArgument
    {
      match this
      case VOk => Returned(this)
      case VFail(e) => if assignable(e) then Returned(this) else Violated(IllegalArgument)
    }
  }

  /** equals(): all successful results are equal; failed ones compare their errors. */
  function VoidEquals<E(==)>(a: VoidResult<E>, b: VoidResult<E>): (eq: bool)
    ensures eq <==> a == b
    ensures a.IsSuccessful() && b.IsSuccessful() ==> eq
    ensures a.IsSuccessful() != b.IsSuccessful() ==> !eq
  {
    match (a, b)
    case (VOk, VOk) => true
    case (VFail(x), VFail(y)) => x == y
    case _ => false
  }

  /** Each result of rs seen as a Result<E>. */
  function AsResults<E>(rs: seq<VoidResult<E>>): (vs: seq<Result<E>>)
    ensures |vs| == |rs|
    ensures forall i :: 0 <= i < |rs| ==> vs[i] == rs[i].AsResult()
  {
    seq(|rs|, i requires 0 <= i < |rs| => rs[i].AsResult())
  }

  /** The errors of the failed results of rs, flat-mapped in list order. */
  function Errors<E>(rs: seq<VoidResult<E>>): (es: seq<E>)
    ensures |es| <= |rs|
  {
    FlatErrors(AsResults(rs))
  }

  /**
   * sequence(results): successful exactly when every input is; otherwise the
   * failure carries the non-empty list of all the inputs' errors, in order.
   */
  function Sequence<E>(results: seq<VoidResult<E>>): (r: VoidResult<seq<E>>)
    ensures r.IsSuccessful() <==> forall i :: 0 <= i < |results| ==> results[i].IsSuccessful()
    ensures r.HasFailed() ==> r.error != [] && r.error == Errors(results)
    ensures r.HasFailed() ==> |r.error| == FailedCount(AsResults(results))
  {
    var errors := Errors(results);
    FlatErrorsEmpty(AsResults(results));
    FlatErrorsLength(AsResults(results));
    if errors == [] then VOk else VFail(errors)
  }

  /** The error list of two concatenated input lists is the concatenation of their error lists. */
  lemma ErrorsAppend<E>(rs: seq<VoidResult<E>>, qs: seq<VoidResult<E>>)
    ensures Errors(rs + qs) == Errors(rs) + Errors(qs)
  {
    assert AsResults(rs + qs) == AsResults(rs) + AsResults(qs);
    FlatErrorsAppend(AsResults(rs), AsResults(qs));
  }

  /** An error is reported by sequence exactly when some input failed with it. */
  lemma SequenceReportsEveryError<E>(results: seq<VoidResult<E>>, e: E)
    ensures Sequence(results).HasFailed() ==>
      (e in Sequence(results).error <==> exists i :: 0 <= i < |results| && results[i].HasFailed() && results[i].error == e)
  {
    FlatErrorsMembers(AsResults(results), e);
    var vs := AsResults(results);
    if exists i :: 0 <= i < |vs| && vs[i].HasFailed() && vs[i].error == e {
      var i :| 0 <= i < |vs| && vs[i].HasFailed() && vs[i].error == e;
      assert results[i].HasFailed() && results[i].error == e;
    }
  }
}
