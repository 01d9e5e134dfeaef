/**
 * The observer contract every outcome implements (the abstract class
 * Result<E>): whether the computation succeeded and, if it failed, its error.
 * ValueResult and VoidResult each map themselves onto this view with
 * AsResult(), the way a Java subclass is seen through its superclass.
 */
module Results {
  import opened Wrappers

  /** A result seen only through the observers of Result<E>. */
  datatype Result<E> = Successful | Failed(error: E) {

    predicate IsSuccessful() {
      Successful?
    }

    /** hasFailed() is implemented once, in the base class, as the negation of isSuccessful(). */
    predicate HasFailed() {
      !IsSuccessful()
    }

    /** error(): the held error, or an invalid-state violation on a success. */
    function Error(): (c: Checked<E>)
      ensures c.Returned? <==> HasFailed()
      ensures HasFailed() ==> c.value == error
      ensures IsSuccessful() ==> c.violation == InvalidState
    {
      if IsSuccessful() then Violated(InvalidState) else Returned(error)
    }

    /** errorStream(): no element for a success, exactly the error for a failure. */
    function ErrorStream(): (s: seq<E>)
      ensures |s| <= 1
      ensures s == [] <==> IsSuccessful()
      ensures HasFailed() ==> s == [error]
    {
      if IsSuccessful() then [] else [error]
    }
  }

  /** stream.flatMap(Result::errorStream), collected into a list. */
  function FlatErrors<E>(rs: seq<Result<E>>): (es: seq<E>)
    ensures |es| <= |rs|
  {
    if rs == [] then [] else rs[0].ErrorStream() + FlatErrors(rs[1..])
  }

  /** The number of failed results in rs. */
  function FailedCount<E>(rs: seq<Result<E>>): nat
  {
    if rs == [] then 0 else (if rs[0].HasFailed() then 1 else 0) + FailedCount(rs[1..])
  }

  /** Flat-mapping the error streams distributes over concatenation: errors keep list order. */
  lemma {:induction false} FlatErrorsAppend<E>(rs: seq<Result<E>>, qs: seq<Result<E>>)
    ensures FlatErrors(rs + qs) == FlatErrors(rs) + FlatErrors(qs)
  {
    if rs == [] {
      assert rs + qs == qs;
    } else {
      assert (rs + qs)[1..] == rs[1..] + qs;
      FlatErrorsAppend(rs[1..], qs);
    }
  }

  /** One error per failed result, and nothing for the successful ones. */
  lemma {:induction false} FlatErrorsLength<E>(rs: seq<Result<E>>)
    ensures |FlatErrors(rs)| == FailedCount(rs)
  {
    if rs != [] {
      FlatErrorsLength(rs[1..]);
    }
  }

  /** No error is collected exactly when every result is successful. */
  lemma {:induction false} FlatErrorsEmpty<E>(rs: seq<Result<E>>)
    ensures FlatErrors(rs) == [] <==> forall i :: 0 <= i < |rs| ==> rs[i].IsSuccessful()
  {
    if rs != [] {
      FlatErrorsEmpty(rs[1..]);
      if rs[0].IsSuccessful() {
        forall i | 0 < i < |rs| ensures rs[i] == rs[1..][i - 1] {}
      }
    }
  }

  /** The collected errors are exactly the errors of the failed results. */
  lemma {:induction false} FlatErrorsMembers<E>(rs: seq<Result<E>>, e: E)
    ensures e in FlatErrors(rs) <==> exists i :: 0 <= i < |rs| && rs[i].HasFailed() && rs[i].error == e
  {
    if rs != [] {
      FlatErrorsMembers(rs[1..], e);
      if e in FlatErrors(rs[1..]) {
        var j :| 0 <= j < |rs[1..]| && rs[1..][j].HasFailed() && rs[1..][j].error == e;
        assert rs[j + 1] == rs[1..][j];
      }
      if exists i :: 0 <= i < |rs| && rs[i].HasFailed() && rs[i].error == e {
        var i :| 0 <= i < |rs| && rs[i].HasFailed() && rs[i].error == e;
        if i > 0 {
          assert rs[1..][i - 1] == rs[i];
        }
      }
    }
  }
}
