/** Optional values, the exceptions the pipeline throws and catches, and
    computations that either return a value or throw. */
module Results {

  /** A value that may be absent: the model of a C# reference that may be null. */
  datatype Option<+T> = None | Some(value: T) {

    /** The value, or `default` when absent (`x ?? default`). */
    function GetOr(default: T): T {
      match this
      case Some(v) => v
      case None => default
    }
  }

  /** The exception types the core throws, catches or tells apart. */
  datatype ExceptionKind =
    | ArgumentNullException
    | ArgumentException
    | FormatException            // Guid.Parse
    | HttpRequestException       // network-level failure
    | JsonException
    | NotImplementedException
    | NotSupportedException
    | RequestFailedException     // Azure.RequestFailedException (secret store)
    | TaskCanceledException      // timeout, cancellation
    | OtherException             // any other exception type

  datatype Exception = Exception(kind: ExceptionKind, message: string)

  /** A computation that returns a value or throws. */
  datatype Result<+T> = Ok(value: T) | Throw(error: Exception)

  /** How C# string interpolation renders a string that may be null. */
  function OrEmpty(s: Option<string>): (r: string)
    ensures s.Some? ==> r == s.value
    ensures s.None? ==> r == ""
  {
    s.GetOr("")
  }
}
