/**
 * Laws that relate the combinators of ValueResult to one another: how a
 * failure short-circuits every chaining operation, how map and flatMap
 * compose, how each other combinator is one instance of fold, how the guard
 * overloads agree, and how the hooks, nullable values and Optionals fit
 * together.
 */
module ValueResultLaws {
  import opened Wrappers
  import opened Results
  import opened ValueResults

  /** ok(v) is successful with value v; null is an ordinary value. */
  lemma OkHoldsValue<V, E>(v: V)
    ensures ValueResult<V, E>.Ok(v).IsSuccessful() && !ValueResult<V, E>.Ok(v).HasFailed()
    ensures ValueResult<V, E>.Ok(v).Value() == Returned(v)
    ensures ValueResult<V, E>.Ok(v).Error() == Violated(InvalidState)
    ensures ValueResult<V, E>.Ok(v).Stream() == [v] && ValueResult<V, E>.Ok(v).ErrorStream() == []
  {
  }

  /** fail(e) has failed with error e; null is an ordinary error. */
  lemma FailHoldsError<V, E>(e: E)
    ensures ValueResult<V, E>.Fail(e).HasFailed() && !ValueResult<V, E>.Fail(e).IsSuccessful()
    ensures ValueResult<V, E>.Fail(e).Error() == Returned(e)
    ensures ValueResult<V, E>.Fail(e).Value() == Violated(InvalidState)
    ensures ValueResult<V, E>.Fail(e).Stream() == [] && ValueResult<V, E>.Fail(e).ErrorStream() == [e]
  {
  }

  /** The null payload in particular: ok(null).value() and fail(null).error() return null. */
  lemma NullPayloads<T, E>()
    ensures ValueResult<Nullable<T>, E>.Ok(Null).Value() == Returned(Null)
    ensures ValueResult<T, Nullable<E>>.Fail(Null).Error() == Returned(Null)
  {
  }

  /**
   * A failed result ignores every guard and short-circuits every chaining
   * operation: the arguments are never consulted and the error is passed on.
   */
  lemma FailureShortCircuits<V, E, W, X>(
    r: ValueResult<V, E>, flag: bool, e: E, flagSupplier: () -> bool, test: V -> bool,
    other: Result<E>, otherSupplier: () -> Result<E>, check: V -> Result<E>,
    next: ValueResult<W, E>, nextSupplier: () -> ValueResult<W, E>, step: V -> ValueResult<W, E>,
    f: V -> W, g: (V, W) -> X)
    requires r.HasFailed()
    ensures r.Ensure(flag, e) == r && r.EnsureSupplier(flagSupplier, e) == r
    ensures r.EnsurePredicate(test, e) == r && r.EnsureResult(other) == r
    ensures r.EnsureResultSupplier(otherSupplier) == r && r.EnsureResultFunction(check) == r
    ensures r.Take(next) == Fail(r.error) && r.TakeSupplier(nextSupplier) == Fail(r.error)
    ensures r.TakeFunction(step) == Fail(r.error) && r.FlatMap(step) == Fail(r.error)
    ensures r.Map(f) == Fail(r.error) && r.Combine(g, next) == Fail(r.error)
  {
  }

  /** A success passes every guard that does not fail, and is replaced by a fresh failure otherwise. */
  lemma SuccessGuards<V, E>(v: V, e: E, other: Result<E>)
    ensures ValueResult<V, E>.Ok(v).Ensure(true, e) == Ok(v)
    ensures ValueResult<V, E>.Ok(v).Ensure(false, e) == Fail(e)
    ensures ValueResult<V, E>.Ok(v).EnsureResult(other) == if other.IsSuccessful() then Ok(v) else Fail(other.error)
  {
  }

  /** The flag guard is the result guard fed with a result that fails exactly when the flag is false. */
  lemma EnsureIsEnsureResult<V, E>(r: ValueResult<V, E>, flag: bool, e: E)
    ensures r.Ensure(flag, e) == r.EnsureResult(if flag then Successful else Failed(e))
  {
  }

  /** The predicate guard is the function guard whose function fails exactly when the predicate is false. */
  lemma EnsurePredicateIsEnsureResultFunction<V, E>(r: ValueResult<V, E>, test: V -> bool, e: E)
    ensures r.EnsurePredicate(test, e) == r.EnsureResultFunction(v => if test(v) then Successful else Failed(e))
  {
  }

  /** Applying the same guard twice is the same as applying it once. */
  lemma EnsureIdempotent<V, E>(r: ValueResult<V, E>, other: Result<E>)
    ensures r.EnsureResult(other).EnsureResult(other) == r.EnsureResult(other)
  {
  }

  /** Guarding with another ValueResult hands its error over, as the tests with failed ValueResults show. */
  lemma EnsureWithValueResult<V, W, E>(r: ValueResult<V, E>, other: ValueResult<W, E>)
    requires r.IsSuccessful()
    ensures r.EnsureResult(other.AsResult()) == if other.HasFailed() then Fail(other.error) else r
  {
  }

  /** map preserves identity and composition. */
  lemma MapFunctor<V, E, W, X>(r: ValueResult<V, E>, f: V -> W, g: W -> X)
    ensures r.Map(v => v) == r
    ensures r.Map(f).Map(g) == r.Map(v => g(f(v)))
  {
  }

  /** mapError preserves identity and composition. */
  lemma MapErrorFunctor<V, E, F, G>(r: ValueResult<V, E>, f: E -> F, g: F -> G)
    ensures r.MapError(e => e) == r
    ensures r.MapError(f).MapError(g) == r.MapError(e => g(f(e)))
  {
  }

  /** map and mapError act on different shapes, so their order does not matter. */
  lemma MapMapErrorCommute<V, E, W, F>(r: ValueResult<V, E>, f: V -> W, g: E -> F)
    ensures r.Map(f).MapError(g) == r.MapError(g).Map(f)
  {
  }

  /** ok is a left and right unit of flatMap, and flatMap is associative. */
  lemma FlatMapMonad<V, E, W, X>(v: V, r: ValueResult<V, E>, f: V -> ValueResult<W, E>, g: W -> ValueResult<X, E>)
    ensures ValueResult<V, E>.Ok(v).FlatMap(f) == f(v)
    ensures r.FlatMap(x => Ok(x)) == r
    ensures r.FlatMap(f).FlatMap(g) == r.FlatMap(x => f(x).FlatMap(g))
  {
  }

  /** map, take and combine are flatMap with a particular function. */
  lemma ChainingIsFlatMap<V, E, W, X>(r: ValueResult<V, E>, f: V -> W, other: ValueResult<W, E>,
                                      step: V -> ValueResult<W, E>, g: (V, W) -> X)
    ensures r.Map(f) == r.FlatMap(v => Ok(f(v)))
    ensures r.Take(other) == r.FlatMap(_ => other)
    ensures r.TakeFunction(step) == r.FlatMap(step)
    ensures r.Combine(g, other) == r.FlatMap(v => other.Map(w => g(v, w)))
  {
  }

  /**
   * map, mapError, flatMap and the extractions orElse, orElseGet, orElseThrow,
   * value, error, stream and isSuccessful are each one instance of fold.
   */
  lemma FoldIsUniversal<V, E, W, F, X>(r: ValueResult<V, E>, f: V -> W, g: E -> F, d: V, h: E -> V,
                                       step: V -> ValueResult<W, E>, supplier: () -> X)
    ensures r.Map(f) == r.Fold(v => Ok(f(v)), e => Fail(e))
    ensures r.MapError(g) == r.Fold(v => Ok(v), e => Fail(g(e)))
    ensures r.FlatMap(step) == r.Fold(step, e => Fail(e))
    ensures r.OrElse(d) == r.Fold(v => v, _ => d)
    ensures r.OrElseGet(h) == r.Fold(v => v, h)
    ensures r.OrElseThrow(supplier) == r.Fold(v => Returns(v), _ => Throws(supplier()))
    ensures r.Value() == r.Fold(v => Returned(v), _ => Violated(InvalidState))
    ensures r.Error() == r.Fold(_ => Violated(InvalidState), e => Returned(e))
    ensures r.Stream() == r.Fold(v => [v], _ => [])
    ensures r.IsSuccessful() == r.Fold(_ => true, _ => false)
  {
  }

  /** toOptional is the fold that wraps a success's nullable value and gives nothing for a failure. */
  lemma ToOptionalIsFold<T, E>(r: ValueResult<Nullable<T>, E>)
    ensures ToOptional(r) == r.Fold(v => OfNullable(v), _ => None)
  {
  }

  /** orElseThrow either returns what orElse would, or throws exactly the supplier's exception. */
  lemma OrElseThrowAgreesWithOrElse<V, E, X>(r: ValueResult<V, E>, d: V, supplier: () -> X)
    ensures r.OrElseThrow(supplier) == if r.IsSuccessful() then Returns(r.OrElse(d)) else Throws(supplier())
  {
  }

  /** onBoth is onSuccess followed by onFailure: the same result and the same effect on the state. */
  lemma OnBothIsOnSuccessThenOnFailure<V, E, S>(r: ValueResult<V, E>, success: (S, V) -> S, failure: (S, E) -> S, s: S)
    ensures r.OnBoth(success, failure, s) == (r, r.OnFailure(failure, r.OnSuccess(success, s).1).1)
  {
  }

  /** toOptional undoes fromNullable: both treat null as the absent value. */
  lemma ToOptionalFromNullable<T, E>(x: Nullable<T>, e: E)
    ensures ToOptional(FromNullable(x, e)) == OfNullable(x)
  {
  }

  /** fromOptional(Optional.ofNullable(x), e) is fromNullable(x, e) without the nullable wrapper. */
  lemma FromOptionalOfNullable<T, E>(x: Nullable<T>, e: E)
    ensures FromOptional(Ref(OfNullable(x)), e).Returned?
    ensures FromOptional(Ref(OfNullable(x)), e).value.Map(t => Ref(t)) == FromNullable(x, e)
  {
  }

  /** A failure turned into a VoidResult keeps its error and its shape. */
  lemma ToVoidResultKeepsError<V, E>(e: E)
    ensures ValueResult<V, E>.Fail(e).ToVoidResult().HasFailed()
    ensures ValueResult<V, E>.Fail(e).ToVoidResult().Error() == Returned(e)
    ensures ValueResult<V, E>.Fail(e).ToVoidResult().AsResult() == ValueResult<V, E>.Fail(e).AsResult()
  {
  }
}

/** The corresponding laws for VoidResult. */
module VoidResultLaws {
  import opened Wrappers
  import opened Results
  import opened VoidResults

  /** ok() is successful; fail(e) has failed with error e (null included). */
  lemma Constructors<E>(e: E)
    ensures VoidResult<E>.VOk.IsSuccessful() && VoidResult<E>.VOk.Error() == Violated(InvalidState) && VoidResult<E>.VOk.ErrorStream() == []
    ensures VFail(e).HasFailed() && VFail(e).Error() == Returned(e) && VFail(e).ErrorStream() == [e]
  {
  }

  /** A failed VoidResult ignores every guard. */
  lemma FailureIgnoresGuards<E>(r: VoidResult<E>, flag: bool, e: E, flagSupplier: () -> bool,
                                other: Result<E>, otherSupplier: () -> Result<E>)
    requires r.HasFailed()
    ensures r.Ensure(flag, e) == r && r.EnsureSupplier(flagSupplier, e) == r
    ensures r.EnsureResult(other) == r && r.EnsureResultSupplier(otherSupplier) == r
  {
  }

  /** The flag guard is the result guard fed with a result that fails exactly when the flag is false. */
  lemma EnsureIsEnsureResult<E>(r: VoidResult<E>, flag: bool, e: E)
    ensures r.Ensure(flag, e) == r.EnsureResult(if flag then Successful else Failed(e))
  {
  }

  /** Guarding a VoidResult with another result yields that result's shape and error. */
  lemma GuardedSuccessIsTheOther<E>(other: Result<E>)
    ensures VOk.EnsureResult(other).AsResult() == other
  {
  }

  /** mapError preserves identity and composition. */
  lemma MapErrorFunctor<E, F, G>(r: VoidResult<E>, f: E -> F, g: F -> G)
    ensures r.MapError(e => e) == r
    ensures r.MapError(f).MapError(g) == r.MapError(e => g(f(e)))
  {
  }

  /** mapError, the observers error, errorStream and isSuccessful, and the flag guard are instances of fold. */
  lemma FoldIsUniversal<E, F>(r: VoidResult<E>, g: E -> F, flag: bool, failure: E)
    ensures r.MapError(g) == r.Fold(() => VOk, e => VFail(g(e)))
    ensures r.Error() == r.Fold(() => Violated(InvalidState), e => Returned(e))
    ensures r.Ensure(flag, failure) == r.Fold(() => if flag then VOk else VFail(failure), _ => r)
    ensures r.ErrorStream() == r.Fold(() => [], e => [e])
    ensures r.IsSuccessful() == r.Fold(() => true, _ => false)
  {
  }

  /** onBoth is onSuccess followed by onFailure. */
  lemma OnBothIsOnSuccessThenOnFailure<E, S>(r: VoidResult<E>, success: S -> S, failure: (S, E) -> S, s: S)
    ensures r.OnBoth(success, failure, s) == (r, r.OnFailure(failure, r.OnSuccessRun(success, s).1).1)
  {
  }

  /** sequence of two lists fails exactly when either part fails, with the errors of both in order. */
  lemma SequenceAppend<E>(rs: seq<VoidResult<E>>, qs: seq<VoidResult<E>>)
    ensures Sequence(rs + qs).IsSuccessful() <==> Sequence(rs).IsSuccessful() && Sequence(qs).IsSuccessful()
    ensures Sequence(rs + qs).HasFailed() ==>
      Sequence(rs + qs).error == Sequence(rs).Fold(() => [], es => es) + Sequence(qs).Fold(() => [], es => es)
  {
    ErrorsAppend(rs, qs);
    var s, s1, s2 := Sequence(rs + qs), Sequence(rs), Sequence(qs);
    assert s.IsSuccessful() <==> Errors(rs + qs) == [];
    assert s1.IsSuccessful() <==> Errors(rs) == [];
    assert s2.IsSuccessful() <==> Errors(qs) == [];
  }

  /** The documented cases of sequence. */
  lemma SequenceExamples()
    ensures Sequence<string>([]) == VOk
    ensures Sequence<string>([VOk, VOk]) == VOk
    ensures Sequence<string>([VFail("err1"), VOk, VFail("err2")]) == VFail(["err1", "err2"])
  {
    var three: seq<VoidResult<string>> := [VFail("err1"), VOk, VFail("err2")];
    var views := AsResults(three);
    assert views == [Failed("err1"), Successful, Failed("err2")];
    assert views[1..] == [Successful, Failed("err2")];
    assert views[1..][1..] == [Failed("err2")];
    assert views[1..][1..][1..] == [];
    assert FlatErrors(views[1..][1..]) == ["err2"];
    assert FlatErrors(views[1..]) == ["err2"];
    assert FlatErrors(views) == ["err1", "err2"];
    var two: seq<VoidResult<string>> := [VOk, VOk];
    assert AsResults(two)[1..][1..] == [];
  }
}
