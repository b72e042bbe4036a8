/**
 Failure-carrying values shared by every module: the Java exceptions the
 modelled code throws or lets escape, an Option for nullable references and
 Optional values, and a Result for calls that either return or throw.
 */
module Outcomes {

  /** The exception classes that can escape the modelled operations. */
  datatype Exception =
    | IllegalArgument   // java.lang.IllegalArgumentException
    | IllegalState      // java.lang.IllegalStateException
    | NullPointer       // java.lang.NullPointerException
    | IndexOutOfBounds  // java.lang.ArrayIndexOutOfBoundsException
    | IOFailure         // java.io.IOException or a Beads file-format exception
    | Loading           // controller.general.LoadingException
    | Downloading       // controller.general.DownloadingException

  /** A Java Optional, or a reference that may be null. */
  datatype Option<+T> = None | Some(value: T)

  /** The outcome of a Java call: a returned value or a thrown exception. */
  datatype Result<+T> = Ok(value: T) | Throw(exception: Exception) {

    predicate IsFailure() {
      Throw?
    }

    function PropagateFailure<U>(): Result<U>
      requires Throw?
    {
      Throw(exception)
    }

    function Extract(): T
      requires Ok?
    {
      value
    }
  }

  /** Java array indexing `a[i]`, which throws when `i` is out of range. */
  function At<T>(a: seq<T>, i: int): (r: Result<T>)
    ensures r.Ok? <==> 0 <= i < |a|
    ensures r.Ok? ==> r.value == a[i]
    ensures r.Throw? ==> r.exception == IndexOutOfBounds
  {
    if 0 <= i < |a| then Ok(a[i]) else Throw(IndexOutOfBounds)
  }
}
