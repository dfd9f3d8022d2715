/** Optional values and the error results a route answers with. */
module Results {

  /** A value that may be missing: an absent query parameter, or `undefined`
      from a dictionary lookup. */
  datatype Option<+T> = None | Some(value: T) {
    function GetOr(default: T): (r: T)
      ensures Some? ==> r == value
      ensures None? ==> r == default
    {
      match this
      case Some(v) => v
      case None => default
    }
  }

  /** The error answers of the backend. */
  datatype ApiError =
    | MonthRequired        // 400 { error: "Month is required" }
    | InvalidMonth         // 400 { error: "Invalid month value" }
    | InternalServerError  // 500 { error: "Internal server error" }

  /** The HTTP status that accompanies an error. */
  function Status(e: ApiError): (code: nat)
    ensures code == 400 <==> (e.MonthRequired? || e.InvalidMonth?)
    ensures code == 500 <==> e.InternalServerError?
  {
    match e
    case MonthRequired => 400
    case InvalidMonth => 400
    case InternalServerError => 500
  }

  /** The JSON body `{ error: ... }` that accompanies an error. */
  function Message(e: ApiError): string
  {
    match e
    case MonthRequired => "Month is required"
    case InvalidMonth => "Invalid month value"
    case InternalServerError => "Internal server error"
  }

  /** The error bodies tell every error apart, including the two that share
      the status 400. */
  lemma MessagesIdentify(e: ApiError, e': ApiError)
    ensures Message(e) == Message(e') <==> e == e'
  {
  }

  /** The answer of a route: a JSON value or an error. */
  datatype Result<+T> = Ok(value: T) | Err(error: ApiError)
}
