/** The result type of the functional realization ("railway" error handling): a
    computation either succeeds with a value or fails with an error, and `Bind`
    runs the next step only after a success. */
module FunctionalResult {
  import opened Comuni

  /** An error carries only its message. */
  datatype Error = Error(Message: string)

  /** In the source both cases name their payload `Content`; here the failure's is
      called `Reason` because the two payloads have different types. */
  datatype Result<T> = Success(Content: T) | Failure(Reason: Error)
  {
    /** Holds exactly when the result is not a failure. */
    predicate IsSuccess(): (b: bool)
      ensures b <==> !Failure?
    {
      Success?
    }

    /** Holds exactly when the result is not a success. */
    predicate IsFailure(): (b: bool)
      ensures b <==> !Success?
    {
      Failure?
    }

    /** The success value, or `default(T)` on a failure; the caller passes the
        language's default value of `T` as `predefinito`. */
    function Value(predefinito: T): (v: T)
      ensures IsSuccess() ==> v == Content
      ensures IsFailure() ==> v == predefinito
    {
      match this
      case Success(c) => c
      case Failure(_) => predefinito
    }

    /** The error, or null (`None`) on a success. */
    function Error(): (e: Option<Error>)
      ensures e.Some? <==> IsFailure()
      ensures IsFailure() ==> e.value == Reason
    {
      match this
      case Success(_) => None
      case Failure(f) => Some(f)
    }

    /** Chains the next step: applies `func` to the value of a success, and
        carries a failure's error over unchanged without calling `func`. */
    function Bind<U>(func: T -> Result<U>): (r: Result<U>)
      ensures IsSuccess() ==> r == func(Content)
      ensures IsFailure() ==> r.IsFailure() && r.Reason == Reason
    {
      match this
      case Success(c) => func(c)
      case Failure(f) => Failure(f)
    }
  }

  /** A success holding `value`. */
  function From<T>(value: T): (r: Result<T>)
    ensures r.IsSuccess() && !r.IsFailure()
    ensures r.Content == value && r.Error() == None
  {
    Success(value)
  }

  /** A failure holding `error`. */
  function Fail<T>(error: Error): (r: Result<T>)
    ensures r.IsFailure() && !r.IsSuccess()
    ensures r.Error() == Some(error)
  {
    Failure(error)
  }

  /** A failure whose error has the message `message`. */
  function FailWithMessage<T>(message: string): (r: Result<T>)
    ensures r.IsFailure() && r.Error() == Some(Error(message))
  {
    Failure(Error(message))
  }

  /** Exactly one of `IsSuccess` and `IsFailure` holds, and each accessor yields
      its default in the other case. */
  lemma EsattamenteUno<T>(r: Result<T>, predefinito: T)
    ensures r.IsSuccess() != r.IsFailure()
    ensures r.IsSuccess() ==> r.Error() == None
    ensures r.IsFailure() ==> r.Value(predefinito) == predefinito
  {
  }

  /** Left identity: binding a fresh success is just applying the function. */
  lemma BindFromIdentitaSinistra<T, U>(x: T, f: T -> Result<U>)
    ensures From(x).Bind(f) == f(x)
  {
  }

  /** A failure goes through any `Bind` with the same error. */
  lemma BindPropagaFallimento<T, U>(e: Error, f: T -> Result<U>)
    ensures Fail<T>(e).Bind(f) == Fail<U>(e)
  {
  }

  /** Right identity: binding `From` changes nothing. */
  lemma BindFromIdentitaDestra<T>(r: Result<T>)
    ensures r.Bind(x => From(x)) == r
  {
  }

  /** Chaining is associative: binding `f` then `g` is binding the chained step. */
  lemma BindAssociativo<T, U, V>(r: Result<T>, f: T -> Result<U>, g: U -> Result<V>)
    ensures r.Bind(f).Bind(g) == r.Bind(x => f(x).Bind(g))
  {
  }
}
